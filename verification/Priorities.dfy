/** A person's priority for an assessed signal: the assessment's relevance plus how well the signal
    fits the person's decision lens and focus areas. */
module Priorities {
  import opened Seqs
  import opened Fx
  import opened Relevance
  import D = Decimals

  datatype Lens = Lens(role: string, responsibilities: set<string>, domains: set<string>)
  datatype FocusArea = FocusArea(text: string, entity: Option<nat>, weight: nat)
  datatype Priority = Priority(score: nat, role: bool, domain: bool, responsibility: bool, focus: seq<string>)

  function MatchedLabels(focus: seq<FocusArea>, entities: set<nat>, mentions: string -> bool): seq<string> {
    if focus == [] then []
    else
      (if (focus[0].entity.Some? && focus[0].entity.value in entities) || mentions(focus[0].text) then [focus[0].text]
       else [])
      + MatchedLabels(focus[1..], entities, mentions)
  }

  function MaxWeight(focus: seq<FocusArea>, labels: seq<string>): (w: nat)
    ensures (forall i :: 0 <= i < |focus| ==> focus[i].weight <= 1000) ==> w <= 1000
  {
    if focus == [] then 0
    else
      var rest := MaxWeight(focus[1..], labels);
      if focus[0].text in labels && focus[0].weight > rest then focus[0].weight else rest
  }

  /** Weights .55, .20, .10, .05 and .10, in 100000ths. */
  function PrioritySum(relevance: nat, role: bool, domain: bool, responsibility: bool, weight: nat): nat {
    55 * relevance + (if role then 20_000 else 0) + (if domain then 10_000 else 0)
    + (if responsibility then 5000 else 0) + 10 * weight
  }

  /** `calculate_personal_priority`. */
  function PersonalPriority(x: Assessment, lens: Lens, focus: seq<FocusArea>, domain: string, eventType: string,
                            entities: set<nat>, mentions: string -> bool): Priority {
    var role, domainMatch := lens.role in x.owners, domain in lens.domains;
    var responsibility := exists t :: t in lens.responsibilities &&
                            (t in x.exposures || t in x.stakes || t == eventType);
    var labels := MatchedLabels(focus, entities, mentions);
    var sum := PrioritySum(x.score, role, domainMatch, responsibility, MaxWeight(focus, labels));
    Priority(HalfUp(Min(sum, 100_000), 100), role, domainMatch, responsibility, labels)
  }

  /** Personal priority stays within one and follows relevance; with weights and relevance at most one
      the clamp is never active. */
  lemma PriorityFollowsRelevance(x: Assessment, y: Assessment, lens: Lens, focus: seq<FocusArea>, domain: string,
                                 eventType: string, entities: set<nat>, mentions: string -> bool)
    requires x == y.(score := x.score, band := x.band) && x.score <= y.score
    ensures var p, q := PersonalPriority(x, lens, focus, domain, eventType, entities, mentions),
                        PersonalPriority(y, lens, focus, domain, eventType, entities, mentions);
            p.score <= q.score <= 1000 && p == q.(score := p.score)
    ensures y.score <= 1000 && (forall i :: 0 <= i < |focus| ==> focus[i].weight <= 1000) ==>
              PrioritySum(y.score, true, true, true,
                          MaxWeight(focus, MatchedLabels(focus, entities, mentions))) <= 100_000
  {
    var p, q := PersonalPriority(x, lens, focus, domain, eventType, entities, mentions),
                PersonalPriority(y, lens, focus, domain, eventType, entities, mentions);
    var labels := MatchedLabels(focus, entities, mentions);
    var weight := MaxWeight(focus, labels);
    var low, high := PrioritySum(x.score, p.role, p.domain, p.responsibility, weight),
                     PrioritySum(y.score, p.role, p.domain, p.responsibility, weight);
    HalfUpMonotone(Min(low, 100_000), Min(high, 100_000), 100);
    HalfUpMonotone(Min(high, 100_000), 100_000, 100);
  }

  // ---------------------------------------------------------------- across both functions

  lemma {:induction false} MoreLabels(focus: seq<FocusArea>, entities: set<nat>, more: set<nat>,
                                      mentions: string -> bool)
    requires entities <= more
    ensures forall t :: t in MatchedLabels(focus, entities, mentions) ==> t in MatchedLabels(focus, more, mentions)
  {
    if focus == [] {
    } else {
      MoreLabels(focus[1..], entities, more, mentions);
    }
  }

  /** `MaxWeight` is the greatest weight among the focus areas with a matched label. */
  lemma {:induction false} MaxWeightIsGreatest(focus: seq<FocusArea>, labels: seq<string>)
    ensures forall i :: 0 <= i < |focus| && focus[i].text in labels ==> focus[i].weight <= MaxWeight(focus, labels)
    ensures MaxWeight(focus, labels) == 0 ||
            exists i :: 0 <= i < |focus| && focus[i].text in labels && focus[i].weight == MaxWeight(focus, labels)
  {
    if focus == [] {
    } else {
      MaxWeightIsGreatest(focus[1..], labels);
      forall i | 0 <= i < |focus| && focus[i].text in labels ensures focus[i].weight <= MaxWeight(focus, labels) {
        assert i > 0 ==> focus[i] == focus[1..][i - 1];
      }
      if MaxWeight(focus, labels) == MaxWeight(focus[1..], labels) != 0 {
        var i :| 0 <= i < |focus| - 1 && focus[1..][i].text in labels &&
            focus[1..][i].weight == MaxWeight(focus[1..], labels);
        assert focus[i + 1] == focus[1..][i];
      }
    }
  }

  lemma MaxWeightMonotone(focus: seq<FocusArea>, labels: seq<string>, more: seq<string>)
    requires forall t :: t in labels ==> t in more
    ensures MaxWeight(focus, labels) <= MaxWeight(focus, more)
  {
    MaxWeightIsGreatest(focus, labels);
    MaxWeightIsGreatest(focus, more);
  }

  function PriorityOf(values: Input, x: Assessment, lens: Lens, focus: seq<FocusArea>): Priority {
    PersonalPriority(x, lens, focus, values.domain, values.eventType, values.entities, values.mentions)
  }

  lemma MoreContextListsMore(a: Input, b: Input)
    requires Enriches(a, b) && AssessRelevance(a).Ok? && AssessRelevance(b).Ok?
    ensures var x, y := AssessRelevance(a).assessment, AssessRelevance(b).assessment;
            && (forall v :: v in x.exposures ==> v in y.exposures)
            && (forall v :: v in x.stakes ==> v in y.stakes)
            && (forall v :: v in x.owners ==> v in y.owners)
  {
    hide AssessRelevance;
    AssessmentLists(a);
    AssessmentLists(b);
    forall r | r in a.rules && RuleFires(a, r) ensures r in b.rules && RuleFires(b, r) {
      RuleStillFires(a, b, r);
    }
  }

  /** From assessment to priority: more company context never lowers anybody's priority for a signal. */
  lemma MoreContextNeverLowersPriority(a: Input, b: Input, lens: Lens, focus: seq<FocusArea>)
    requires Enriches(a, b) && a.urgency <= 1000 && AssessRelevance(a).Ok?
    ensures AssessRelevance(b).Ok?
    ensures PriorityOf(a, AssessRelevance(a).assessment, lens, focus).score
            <= PriorityOf(b, AssessRelevance(b).assessment, lens, focus).score
  {
    hide AssessRelevance;
    MoreContextNeverHurts(a, b);
    MoreContextListsMore(a, b);
    MoreLabels(focus, a.entities, b.entities, a.mentions);
    var x, y := AssessRelevance(a).assessment, AssessRelevance(b).assessment;
    var l, m := MatchedLabels(focus, a.entities, a.mentions), MatchedLabels(focus, b.entities, b.mentions);
    MaxWeightMonotone(focus, l, m);
    var p, q := PriorityOf(a, x, lens, focus), PriorityOf(b, y, lens, focus);
    assert (p.role ==> q.role) && p.domain == q.domain && (p.responsibility ==> q.responsibility);
    HalfUpMonotone(Min(PrioritySum(x.score, p.role, p.domain, p.responsibility, MaxWeight(focus, l)), 100_000),
                   Min(PrioritySum(y.score, q.role, q.domain, q.responsibility, MaxWeight(focus, m)), 100_000), 100);
  }
}
