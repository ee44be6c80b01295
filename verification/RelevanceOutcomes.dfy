/** When an object matches, a rule applies and a score arises, from the stored values alone; and what one
    more rule changes. */
module RelevanceOutcomes {
  import opened Seqs
  import opened Fx
  import opened Relevance
  import opened Priorities
  import D = Decimals

  // ---------------------------------------------------------------- matching

  /** The object's entity is one of the signal's, or it is a market among the signal's regions, or the
      evidence mentions its name. */
  predicate ObjectIsMatched(values: Input, o: ContextObject) {
    || (o.entity != None && o.entity.value in values.entities)
    || (o.objectType == "MARKET" && o.name in values.regions)
    || values.mentions(o.name)
  }

  /** Some matched object has the type; "INFRASTRUCTURE_DEPENDENCY" asks for "DEPENDENCY". */
  predicate ContextHas(values: Input, wanted: string) {
    exists o :: o in values.objects && ObjectIsMatched(values, o) &&
                o.objectType == if wanted == "INFRASTRUCTURE_DEPENDENCY" then "DEPENDENCY" else wanted
  }

  /** The rule is for the signal's domain and event type, and its required context is matched. */
  predicate RuleApplies(values: Input, rule: Rule) {
    && rule.domain == values.domain
    && values.eventType in rule.conditions.eventTypes
    && (rule.conditions.required != None && rule.conditions.required.value != "" ==>
          ContextHas(values, rule.conditions.required.value))
    && (rule.conditions.anyRequired != [] ==>
          exists wanted :: wanted in rule.conditions.anyRequired && ContextHas(values, wanted))
  }

  lemma MatchedIff(values: Input)
    ensures forall o :: o in Matched(values) <==> o in values.objects && ObjectIsMatched(values, o)
    ensures Matched(values) == Filter(values.objects, (o: ContextObject) => ObjectIsMatched(values, o))
  {
    assert forall o :: ObjectMatches(values, o) == ObjectIsMatched(values, o);
    SameFilter(values.objects, (o: ContextObject) => ObjectMatches(values, o),
               (o: ContextObject) => ObjectIsMatched(values, o));
  }

  lemma HasTypeIff(values: Input, wanted: string)
    ensures HasType(Matched(values), ContextType(wanted)) <==> ContextHas(values, wanted)
  {
    MatchedIff(values);
    hide Matched;
    var matched := Matched(values);
    if ContextHas(values, wanted) {
      var o :| o in values.objects && ObjectIsMatched(values, o) &&
               o.objectType == if wanted == "INFRASTRUCTURE_DEPENDENCY" then "DEPENDENCY" else wanted;
      var i :| 0 <= i < |matched| && matched[i] == o;
    }
    if HasType(matched, ContextType(wanted)) {
      var i :| 0 <= i < |matched| && matched[i].objectType == ContextType(wanted);
      assert matched[i] in matched;
    }
  }

  lemma RuleAppliesIff(values: Input, rule: Rule)
    ensures RuleFires(values, rule) <==> RuleApplies(values, rule)
  {
    if rule.conditions.required.Some? {
      HasTypeIff(values, rule.conditions.required.value);
    }
    var any := rule.conditions.anyRequired;
    forall i | 0 <= i < |any|
      ensures any[i] in any && (HasType(Matched(values), ContextType(any[i])) <==> ContextHas(values, any[i]))
    {
      HasTypeIff(values, any[i]);
    }
    hide HasType, ContextHas, Matched, ContextType;
  }

  // ---------------------------------------------------------------- the score

  /** `_q` of .40 applicability + .20 min(matched / 3, 1) + .15 urgency + .10 entity + .10 strategy, in
      thousandths; the sum is taken in 300000ths. */
  ghost predicate IsScore(values: Input, score: nat) {
    var matched := Filter(values.objects, (o: ContextObject) => ObjectIsMatched(values, o));
    var sum :=
      (if matched != [] || (exists m :: m in values.markets && m in values.regions) then 120_000 else 0)
      + (if |matched| >= 3 then 60_000 else 20_000 * |matched|)
      + 45 * values.urgency
      + (if exists o :: o in matched && o.entity != None && o.entity.value in values.entities then 30_000 else 0)
      + (if exists term :: term in values.priorities && values.mentions(term) then 30_000 else 0);
    600 * score <= 2 * sum + 300 < 600 * score + 600
  }

  lemma ScoreInPlainTerms(values: Input)
    requires values.urgency <= 1000
    ensures IsScore(values, RelevanceScore(values))
  {
    hide D.Round28, DecimalScore, WeightedSum, ObjectMatches, ObjectIsMatched;
    var matched := Matched(values);
    MatchedIff(values);
    DecimalThirdsAreHarmless(|matched|, Applicable(values), values.urgency, EntityMatch(values, matched),
                             StrategicMatch(values));
    HalfUpIsNearest(ExactSum(|matched|, Applicable(values), values.urgency, EntityMatch(values, matched),
                             StrategicMatch(values)), 300, RelevanceScore(values));
    FlagsInPlainTerms(values);
    hide Matched, Applicable, EntityMatch, StrategicMatch;
  }

  lemma FlagsInPlainTerms(values: Input)
    ensures Applicable(values) <==> Matched(values) != [] || exists m :: m in values.markets && m in values.regions
    ensures EntityMatch(values, Matched(values)) <==>
            exists o :: o in Matched(values) && o.entity != None && o.entity.value in values.entities
    ensures StrategicMatch(values) <==> exists term :: term in values.priorities && values.mentions(term)
  {
    hide Matched;
    var matched := Matched(values);
    if m :| m in values.markets && m in values.regions {
      assert m in values.markets * values.regions;
    }
    if EntityMatch(values, matched) {
      var i :| 0 <= i < |matched| && matched[i].entity.Some? && matched[i].entity.value in values.entities;
      assert matched[i] in matched;
    }
  }

  // ---------------------------------------------------------------- the assessment

  /** The applying rules by priority, ties in their stored order. */
  ghost predicate AreApplying(values: Input, fired: seq<Rule>) {
    fired == StableSort(Filter(values.rules, (r: Rule) => RuleApplies(values, r)),
                        (a: Rule, b: Rule) => a.priority <= b.priority)
  }

  lemma FiredAreApplying(values: Input)
    ensures AreApplying(values, FiredRules(values))
  {
    hide RuleFires, RuleApplies;
    forall r ensures RuleFires(values, r) == RuleApplies(values, r) {
      RuleAppliesIff(values, r);
    }
    FilterOfStableSort(values.rules, (a: Rule, b: Rule) => a.priority <= b.priority,
                       (r: Rule) => RuleFires(values, r));
    SameFilter(values.rules, (r: Rule) => RuleFires(values, r), (r: Rule) => RuleApplies(values, r));
  }

  lemma {:induction false} CodesAt(rules: seq<Rule>)
    ensures |Codes(rules)| == |rules| && forall i :: 0 <= i < |rules| ==> Codes(rules)[i] == rules[i].code
  {
    if rules == [] {
    } else {
      CodesAt(rules[1..]);
    }
  }

  /** The whole assessment. */
  ghost predicate IsAssessment(values: Input, fired: seq<Rule>, x: Assessment) {
    && x.matched == Filter(values.objects, (o: ContextObject) => ObjectIsMatched(values, o))
    && (x.noContextMatch <==> x.matched == [])
    && (forall r :: r in values.rules ==> r.version == x.ruleVersion)
    && |x.ruleCodes| == |fired| && (forall i :: 0 <= i < |fired| ==> x.ruleCodes[i] == fired[i].code)
    && Says(fired, x)
    && IsScored(values, x)
  }

  /** A decision lifts the score to 700; the bands start at 850, 700 and 450. */
  ghost predicate IsScored(values: Input, x: Assessment) {
    && (exists base: nat :: IsScore(values, base) && x.score == if x.decisionRequired && base < 700 then 700 else base)
    && (x.band == CRITICAL <==> x.score >= 850) && (x.band == HIGH <==> 700 <= x.score < 850)
    && (x.band == STANDARD <==> 450 <= x.score < 700) && (x.band == LOW <==> x.score < 450)
  }

  /** What the applying rules say, without repetition; the decision is that of the first rule that requires
      one. */
  ghost predicate Says(fired: seq<Rule>, x: Assessment) {
    && Unique(x.exposures) && (forall v :: v in x.exposures <==> exists r :: r in fired && v in r.output.exposures)
    && Unique(x.stakes) && (forall v :: v in x.stakes <==> exists r :: r in fired && v in r.output.stakes)
    && Unique(x.owners) && (forall v :: v in x.owners <==> exists r :: r in fired && v in r.output.owners)
    && (x.decisionRequired <==> exists r :: r in fired && r.output.decisionRequired)
    && (!x.decisionRequired ==> x.decisionType == None)
    && (x.decisionRequired ==> exists i :: 0 <= i < |fired| && IsFirstDecision(fired, i) &&
                                 x.decisionType == fired[i].output.decisionType)
  }

  predicate IsFirstDecision(fired: seq<Rule>, i: nat)
    requires i < |fired|
  {
    fired[i].output.decisionRequired && forall j :: 0 <= j < i ==> !fired[j].output.decisionRequired
  }

  lemma {:induction false} FirstDecisionAt(fired: seq<Rule>)
    ensures FirstDecision(fired).Some? ==>
              exists i :: 0 <= i < |fired| && IsFirstDecision(fired, i) && FirstDecision(fired).value == fired[i]
  {
    if fired == [] {
    } else if fired[0].output.decisionRequired {
      assert IsFirstDecision(fired, 0);
    } else if FirstDecision(fired).Some? {
      FirstDecisionAt(fired[1..]);
      var i :| 0 <= i < |fired| - 1 && IsFirstDecision(fired[1..], i) && FirstDecision(fired).value == fired[1..][i];
      assert forall j :: 1 <= j <= i + 1 ==> fired[j] == fired[1..][j - 1];
      assert IsFirstDecision(fired, i + 1);
    }
  }

  lemma GatheredIff(fired: seq<Rule>)
    ensures forall v :: v in Distinct(Gather(fired, Exposures)) <==> exists r :: r in fired && v in r.output.exposures
    ensures forall v :: v in Distinct(Gather(fired, Stakes)) <==> exists r :: r in fired && v in r.output.stakes
    ensures forall v :: v in Distinct(Gather(fired, Owners)) <==> exists r :: r in fired && v in r.output.owners
  {
    forall v ensures v in Gather(fired, Exposures) <==> exists r :: r in fired && v in r.output.exposures {
      GatherHolds(fired, Exposures, v);
    }
    forall v ensures v in Gather(fired, Stakes) <==> exists r :: r in fired && v in r.output.stakes {
      GatherHolds(fired, Stakes, v);
    }
    forall v ensures v in Gather(fired, Owners) <==> exists r :: r in fired && v in r.output.owners {
      GatherHolds(fired, Owners, v);
    }
  }

  lemma FiredSay(values: Input)
    requires AssessRelevance(values).Ok?
    ensures Says(FiredRules(values), AssessRelevance(values).assessment)
  {
    hide RelevanceScore, Matched, FiredRules, BandOf, IsFirstDecision, Gather, Exposures, Stakes, Owners;
    var fired := FiredRules(values);
    GatheredIff(fired);
    FirstDecisionAt(fired);
    assert forall i :: 0 <= i < |fired| ==> fired[i] in fired;
  }

  lemma AssessedFields(values: Input)
    requires AssessRelevance(values).Ok?
    ensures var x := AssessRelevance(values).assessment;
            && x.matched == Matched(values) && (x.noContextMatch <==> Matched(values) == [])
            && x.ruleCodes == Codes(FiredRules(values))
            && (forall r :: r in values.rules ==> r.version == x.ruleVersion)
  {
    hide Matched, RelevanceScore, FiredRules, Gather, Distinct, FirstDecision, Codes, BandOf;
    assert forall i :: 0 <= i < |values.rules| ==> values.rules[i] in values.rules;
  }

  lemma AssessedIsScored(values: Input)
    requires values.urgency <= 1000 && AssessRelevance(values).Ok?
    ensures IsScored(values, AssessRelevance(values).assessment)
  {
    hide AssessRelevance, RelevanceScore, FiredRules, FirstDecision, IsScore;
    ScoreInPlainTerms(values);
    AssessmentShape(values);
    var x := AssessRelevance(values).assessment;
    assert IsScore(values, RelevanceScore(values));
    assert x.band == BandOf(x.score);
  }

  lemma AssessedIs(values: Input)
    requires values.urgency <= 1000 && AssessRelevance(values).Ok?
    ensures IsAssessment(values, FiredRules(values), AssessRelevance(values).assessment)
  {
    hide AssessRelevance, RelevanceScore, Matched, FiredRules, FirstDecision, IsScored, Says, ObjectIsMatched, Filter,
         Codes;
    FiredSay(values);
    AssessedIsScored(values);
    MatchedIff(values);
    CodesAt(FiredRules(values));
    AssessedFields(values);
  }

  /** Assessment fails on no rules or on mixed versions, and otherwise is as described. */
  lemma AssessmentInPlainTerms(values: Input)
    requires values.urgency <= 1000
    ensures var result := AssessRelevance(values);
            && (result == NoActiveRule <==> values.rules == [])
            && (result == MixedVersions <==>
                exists r, s :: r in values.rules && s in values.rules && r.version != s.version)
            && (result.Ok? ==>
                exists fired :: AreApplying(values, fired) && IsAssessment(values, fired, result.assessment))
  {
    AssessmentShape(values);
    hide AssessRelevance, IsAssessment, AreApplying;
    if AssessRelevance(values).Ok? {
      FiredAreApplying(values);
      AssessedIs(values);
    }
    assert forall i :: 0 <= i < |values.rules| ==> values.rules[i] in values.rules;
  }

  // ---------------------------------------------------------------- one more rule

  function WithRule(values: Input, a: seq<Rule>, r: Rule, b: seq<Rule>): Input {
    values.(rules := a + [r] + b)
  }

  lemma MatchedIsFramed(u: Input, v: Input)
    requires u == v.(rules := u.rules)
    ensures Matched(u) == Matched(v)
  {
    assert forall o :: ObjectMatches(u, o) == ObjectMatches(v, o);
    hide ObjectMatches;
    SameFilter(v.objects, (o: ContextObject) => ObjectMatches(u, o), (o: ContextObject) => ObjectMatches(v, o));
  }

  lemma RulesAreFramed(u: Input, v: Input)
    requires u == v.(rules := u.rules)
    ensures Matched(u) == Matched(v) && RelevanceScore(u) == RelevanceScore(v)
    ensures forall r :: RuleFires(u, r) == RuleFires(v, r)
  {
    MatchedIsFramed(u, v);
    SameMatches(u, v);
    RulesFireAlike(u, v);
    hide Matched, RuleFires, RelevanceScore, Applicable, EntityMatch, HasType, StrategicMatch;
  }

  /** The rules that fire, before sorting. */
  function Firing(values: Input, rules: seq<Rule>): seq<Rule> {
    Filter(rules, (r: Rule) => RuleFires(values, r))
  }

  lemma FiredIsSorted(values: Input)
    ensures FiredRules(values) ==
            StableSort(Firing(values, values.rules), (a: Rule, b: Rule) => a.priority <= b.priority)
  {
    hide RuleFires;
    FilterOfStableSort(values.rules, (a: Rule, b: Rule) => a.priority <= b.priority, (r: Rule) => RuleFires(values, r));
  }

  lemma FiringConcat(values: Input, s: seq<Rule>, t: seq<Rule>)
    ensures Firing(values, s + t) == Firing(values, s) + Firing(values, t)
  {
    hide RuleFires;
    FilterConcat(s, t, (r: Rule) => RuleFires(values, r));
  }

  lemma FiringIsFramed(u: Input, v: Input, rules: seq<Rule>)
    requires u == v.(rules := u.rules)
    ensures Firing(u, rules) == Firing(v, rules)
  {
    hide RuleFires, Matched, RelevanceScore;
    RulesAreFramed(u, v);
    SameFilter(rules, (r: Rule) => RuleFires(u, r), (r: Rule) => RuleFires(v, r));
  }

  lemma FiringOne(values: Input, r: Rule)
    ensures Firing(values, [r]) == if RuleApplies(values, r) then [r] else []
  {
    RuleAppliesIff(values, r);
    hide RuleFires, RuleApplies;
  }

  lemma FiringWith(values: Input, a: seq<Rule>, r: Rule, b: seq<Rule>)
    requires values.rules == a + b
    ensures var u := WithRule(values, a, r, b);
            && Firing(u, u.rules) ==
               Firing(values, a) + (if RuleApplies(values, r) then [r] else []) + Firing(values, b)
            && Firing(values, values.rules) == Firing(values, a) + Firing(values, b)
  {
    hide Firing, RuleApplies;
    var u := WithRule(values, a, r, b);
    FiringIsFramed(u, values, u.rules);
    FiringConcat(values, a + [r], b);
    FiringConcat(values, a, [r]);
    FiringConcat(values, a, b);
    FiringOne(values, r);
  }

  lemma AssessmentIsDetermined(u: Input, v: Input)
    requires u.rules != [] && v.rules != [] && u.rules[0].version == v.rules[0].version
    requires (forall r :: r in u.rules ==> r.version == u.rules[0].version) <==>
             (forall r :: r in v.rules ==> r.version == v.rules[0].version)
    requires Matched(u) == Matched(v) && RelevanceScore(u) == RelevanceScore(v) && FiredRules(u) == FiredRules(v)
    ensures AssessRelevance(u) == AssessRelevance(v)
  {
    hide Matched, RelevanceScore, FiredRules, Gather, Distinct, FirstDecision, Codes, BandOf;
    assert forall i :: 0 <= i < |u.rules| ==> u.rules[i] in u.rules;
    assert forall i :: 0 <= i < |v.rules| ==> v.rules[i] in v.rules;
  }

  /** A rule that does not apply changes nothing, wherever it stands. */
  lemma InapplicableRuleIsInert(values: Input, a: seq<Rule>, r: Rule, b: seq<Rule>)
    requires values.rules == a + b && a + b != [] && r.version == (a + b)[0].version
    requires !RuleApplies(values, r)
    ensures AssessRelevance(WithRule(values, a, r, b)) == AssessRelevance(values)
  {
    hide RuleApplies, RuleFires, Firing, StableSort, Matched, RelevanceScore, FiredRules, AssessRelevance;
    var u := WithRule(values, a, r, b);
    RulesAreFramed(u, values);
    FiringWith(values, a, r, b);
    FiredIsSorted(u);
    FiredIsSorted(values);
    assert Firing(values, a) + [] == Firing(values, a);
    assert forall x :: x in u.rules <==> x in values.rules || x == r;
    AssessmentIsDetermined(u, values);
  }

  lemma {:induction false} CodesOfInsert(x: Rule, s: seq<Rule>, le: (Rule, Rule) -> bool)
    ensures multiset(Codes(Insert(x, s, le))) == multiset(Codes(s)) + multiset{x.code}
  {
    if s == [] || le(x, s[0]) {
      assert ([x] + s)[1..] == s;
    } else {
      CodesOfInsert(x, s[1..], le);
      assert ([s[0]] + Insert(x, s[1..], le))[1..] == Insert(x, s[1..], le);
    }
  }

  lemma {:induction false} CodesOfSort(s: seq<Rule>, le: (Rule, Rule) -> bool)
    ensures multiset(Codes(StableSort(s, le))) == multiset(Codes(s))
  {
    if s == [] {
    } else {
      CodesOfSort(s[1..], le);
      CodesOfInsert(s[0], StableSort(s[1..], le), le);
    }
  }

  lemma {:induction false} CodesOfConcat(s: seq<Rule>, t: seq<Rule>)
    ensures Codes(s + t) == Codes(s) + Codes(t)
  {
    if s == [] {
      assert s + t == t;
    } else {
      assert (s + t)[1..] == s[1..] + t;
      CodesOfConcat(s[1..], t);
    }
  }

  lemma CodesWith(before: seq<Rule>, r: Rule, after: seq<Rule>)
    ensures multiset(Codes(before + [r] + after)) == multiset(Codes(before + after)) + multiset{r.code}
  {
    CodesOfConcat(before + [r], after);
    CodesOfConcat(before, [r]);
    CodesOfConcat(before, after);
    assert Codes([r]) == [r.code];
    hide Codes;
  }

  lemma ElementsWith(before: seq<Rule>, r: Rule, after: seq<Rule>, le: (Rule, Rule) -> bool)
    requires TotalPreorder(le)
    ensures forall x :: x in StableSort(before + [r] + after, le) <==> x in StableSort(before + after, le) || x == r
  {
    hide StableSort, TotalPreorder;
    SortedHasSameElements(before + [r] + after, le);
    SortedHasSameElements(before + after, le);
    assert forall x :: x in before + [r] + after <==> x in before + after || x == r;
  }

  lemma SortedWith(before: seq<Rule>, r: Rule, after: seq<Rule>, le: (Rule, Rule) -> bool)
    requires TotalPreorder(le)
    ensures var s, t := StableSort(before + [r] + after, le), StableSort(before + after, le);
            (forall x :: x in s <==> x in t || x == r) && multiset(Codes(s)) == multiset(Codes(t)) + multiset{r.code}
  {
    hide StableSort, TotalPreorder, Codes;
    ElementsWith(before, r, after, le);
    CodesOfSort(before + [r] + after, le);
    CodesOfSort(before + after, le);
    CodesWith(before, r, after);
  }

  lemma OneMoreFired(values: Input, a: seq<Rule>, r: Rule, b: seq<Rule>)
    requires values.rules == a + b && RuleApplies(values, r)
    ensures var u := WithRule(values, a, r, b);
            && (forall x :: x in FiredRules(u) <==> x in FiredRules(values) || x == r)
            && multiset(Codes(FiredRules(u))) == multiset(Codes(FiredRules(values))) + multiset{r.code}
  {
    hide RuleApplies, Firing, StableSort, FiredRules, Codes;
    FiringWith(values, a, r, b);
    FiredIsSorted(WithRule(values, a, r, b));
    FiredIsSorted(values);
    SortedWith(Firing(values, a), r, Firing(values, b), (x: Rule, y: Rule) => x.priority <= y.priority);
  }

  /** A rule that applies is reported, with everything its output says, beside what the others said, and
      it turns the decision on if its output requires one. */
  lemma ApplicableRuleCounts(values: Input, a: seq<Rule>, r: Rule, b: seq<Rule>)
    requires values.rules == a + b && RuleApplies(values, r)
    requires forall s :: s in a + b ==> s.version == r.version
    ensures AssessRelevance(WithRule(values, a, r, b)).Ok? && (a + b != [] ==> AssessRelevance(values).Ok?)
    ensures var x := AssessRelevance(WithRule(values, a, r, b)).assessment;
            && r.code in x.ruleCodes
            && (forall v :: v in r.output.exposures ==> v in x.exposures)
            && (forall v :: v in r.output.stakes ==> v in x.stakes)
            && (forall v :: v in r.output.owners ==> v in x.owners)
            && (r.output.decisionRequired ==> x.decisionRequired && x.score >= 700)
    ensures a + b != [] ==>
              var x, y := AssessRelevance(WithRule(values, a, r, b)).assessment, AssessRelevance(values).assessment;
              && multiset(x.ruleCodes) == multiset(y.ruleCodes) + multiset{r.code}
              && (forall v :: v in x.exposures <==> v in y.exposures || v in r.output.exposures)
              && (forall v :: v in x.stakes <==> v in y.stakes || v in r.output.stakes)
              && (forall v :: v in x.owners <==> v in y.owners || v in r.output.owners)
              && (x.decisionRequired <==> y.decisionRequired || r.output.decisionRequired)
  {
    hide RuleApplies, FiredRules, AssessRelevance, RelevanceScore, Codes, FirstDecision;
    var u := WithRule(values, a, r, b);
    OneMoreFired(values, a, r, b);
    AssessmentShape(u);
    AssessmentShape(values);
    assert forall x :: x in u.rules <==> x in values.rules || x == r;
    assert forall i :: 0 <= i < |u.rules| ==> u.rules[i] in u.rules;
    assert forall i :: 0 <= i < |values.rules| ==> values.rules[i] in values.rules;
    FiredSay(u);
    AssessedFields(u);
    if a + b != [] {
      FiredSay(values);
      AssessedFields(values);
    }
    assert r.code in multiset(Codes(FiredRules(u)));
  }

  // ---------------------------------------------------------------- order of the lists

  lemma {:induction false} GatherConcat(s: seq<Rule>, t: seq<Rule>, pick: RuleOutput -> seq<string>)
    ensures Gather(s + t, pick) == Gather(s, pick) + Gather(t, pick)
  {
    if s == [] {
      assert s + t == t;
    } else {
      assert (s + t)[1..] == s[1..] + t;
      GatherConcat(s[1..], t, pick);
    }
  }

  lemma GatherOne(r: Rule)
    ensures Gather([r], Exposures) == r.output.exposures && Gather([r], Stakes) == r.output.stakes
    ensures Gather([r], Owners) == r.output.owners
  {
  }

  lemma AssessedLists(values: Input)
    requires AssessRelevance(values).Ok?
    ensures var x, fired := AssessRelevance(values).assessment, FiredRules(values);
            && x.exposures == Distinct(Gather(fired, Exposures)) && x.stakes == Distinct(Gather(fired, Stakes))
            && x.owners == Distinct(Gather(fired, Owners))
  {
    hide Matched, RelevanceScore, FiredRules, FirstDecision, Codes, BandOf, Gather, Distinct;
  }

  /** Each list holds the values of the rules in firing order, at their first occurrence. */
  lemma ListsAreInOrder(values: Input)
    requires AssessRelevance(values).Ok?
    ensures var x, fired := AssessRelevance(values).assessment, FiredRules(values);
            && FirstDistinct(Gather(fired, Exposures), x.exposures, |Gather(fired, Exposures)|)
            && FirstDistinct(Gather(fired, Stakes), x.stakes, |Gather(fired, Stakes)|)
            && FirstDistinct(Gather(fired, Owners), x.owners, |Gather(fired, Owners)|)
  {
    hide AssessRelevance, FiredRules, FirstDistinct, Distinct, Gather;
    var fired := FiredRules(values);
    AssessedLists(values);
    DistinctIsFirst(Gather(fired, Exposures));
    DistinctIsFirst(Gather(fired, Stakes));
    DistinctIsFirst(Gather(fired, Owners));
  }

  // ---------------------------------------------------------------- personal priority

  predicate FocusIsMatched(f: FocusArea, entities: set<nat>, mentions: string -> bool) {
    (f.entity != None && f.entity.value in entities) || mentions(f.text)
  }

  lemma {:induction false} LabelsAreMatched(focus: seq<FocusArea>, entities: set<nat>, mentions: string -> bool)
    ensures var labels := MatchedLabels(focus, entities, mentions);
            var kept := Filter(focus, (f: FocusArea) => FocusIsMatched(f, entities, mentions));
            |labels| == |kept| && forall i :: 0 <= i < |kept| ==> labels[i] == kept[i].text
  {
    if focus == [] {
    } else {
      LabelsAreMatched(focus[1..], entities, mentions);
    }
  }

  /** The weight that counts: the greatest of the focus areas with a reported label, or zero. */
  predicate IsFocusWeight(w: nat, focus: seq<FocusArea>, labels: seq<string>) {
    && (forall i :: 0 <= i < |focus| && focus[i].text in labels ==> focus[i].weight <= w)
    && (w == 0 || exists i :: 0 <= i < |focus| && focus[i].text in labels && focus[i].weight == w)
  }

  /** `_q` of .55 relevance + .20 role + .10 domain + .05 responsibility + .10 focus, in thousandths. */
  lemma PriorityInPlainTerms(x: Assessment, lens: Lens, focus: seq<FocusArea>, domain: string, eventType: string,
                             entities: set<nat>, mentions: string -> bool)
    ensures var p := PersonalPriority(x, lens, focus, domain, eventType, entities, mentions);
            var kept := Filter(focus, (f: FocusArea) => FocusIsMatched(f, entities, mentions));
            && (p.role <==> lens.role in x.owners)
            && (p.domain <==> domain in lens.domains)
            && (p.responsibility <==> eventType in lens.responsibilities ||
                                      (exists t :: t in lens.responsibilities && t in x.exposures) ||
                                      (exists t :: t in lens.responsibilities && t in x.stakes))
            && |p.focus| == |kept| && (forall i :: 0 <= i < |kept| ==> p.focus[i] == kept[i].text)
            && exists w: nat :: IsFocusWeight(w, focus, p.focus) &&
                 IsPriority(p.score, x.score, p.role, p.domain, p.responsibility, w)
  {
    var p := PersonalPriority(x, lens, focus, domain, eventType, entities, mentions);
    LabelsAreMatched(focus, entities, mentions);
    hide MatchedLabels, MaxWeight, IsFocusWeight, IsPriority, FocusIsMatched, HalfUp, Filter;
    var w := MaxWeight(focus, p.focus);
    FocusWeight(focus, p.focus);
    SumIsPriority(x.score, p.role, p.domain, p.responsibility, w);
  }

  /** The weighted sum in millionths, at most one, to the nearest thousandth, ties upward. */
  predicate IsPriority(score: nat, relevance: nat, role: bool, domain: bool, responsibility: bool, w: nat) {
    var sum := 550 * relevance + (if role then 200_000 else 0) + (if domain then 100_000 else 0) +
               (if responsibility then 50_000 else 0) + 100 * w;
    var capped := if sum > 1_000_000 then 1_000_000 else sum;
    2000 * score <= 2 * capped + 1000 < 2000 * score + 2000
  }

  lemma FocusWeight(focus: seq<FocusArea>, labels: seq<string>)
    ensures IsFocusWeight(MaxWeight(focus, labels), focus, labels)
  {
    MaxWeightIsGreatest(focus, labels);
    hide MaxWeight;
  }

  lemma SumIsPriority(relevance: nat, role: bool, domain: bool, responsibility: bool, w: nat)
    ensures var sum := PrioritySum(relevance, role, domain, responsibility, w);
            IsPriority(HalfUp(Min(sum, 100_000), 100), relevance, role, domain, responsibility, w)
  {
    var sum := Min(PrioritySum(relevance, role, domain, responsibility, w), 100_000);
    HalfUpIsNearest(sum, 100, HalfUp(sum, 100));
    hide HalfUp;
  }
}
