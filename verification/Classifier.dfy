/** Rule-based signal classification: collect every keyword hit, sort, take the first. `found` says
    whether an expression is found in the signal's searchable text. */
module Classifier {
  import opened Seqs

  datatype KeywordRule = KeywordRule(expressions: seq<string>, confidence: real, tags: seq<string>)
  datatype TaxonomyRule = TaxonomyRule(domain: string, eventType: string, keywords: seq<KeywordRule>)
  datatype Hit = Hit(rule: TaxonomyRule, index: nat)
  datatype Classification =
    | Unclassified
    | Classified(domain: string, eventType: string, tags: seq<string>, confidence: real, conflict: bool)

  /** Python's string order, by code point. */
  predicate LexLe(a: string, b: string) {
    a == [] || (b != [] && (a[0] < b[0] || (a[0] == b[0] && LexLe(a[1..], b[1..]))))
  }

  lemma {:induction false} LexTotal(a: string, b: string)
    ensures LexLe(a, b) || LexLe(b, a)
    ensures LexLe(a, b) && LexLe(b, a) ==> a == b
  {
    if a != [] && b != [] {
      LexTotal(a[1..], b[1..]);
      assert a == [a[0]] + a[1..] && b == [b[0]] + b[1..];
    }
  }

  lemma {:induction false} LexTransitive(a: string, b: string, c: string)
    requires LexLe(a, b) && LexLe(b, c)
    ensures LexLe(a, c)
  {
    if a != [] && a[0] == b[0] == c[0] {
      LexTransitive(a[1..], b[1..], c[1..]);
    }
  }

  predicate Fires(keyword: KeywordRule, found: string -> bool) {
    forall i :: 0 <= i < |keyword.expressions| ==> found(keyword.expressions[i])
  }

  function Confidence(h: Hit): real {
    if h.index < |h.rule.keywords| then h.rule.keywords[h.index].confidence else 0.0
  }

  /** `key=lambda item: (-confidence, domain, event_type)`. */
  predicate Before(a: Hit, b: Hit) {
    || Confidence(a) > Confidence(b)
    || (Confidence(a) == Confidence(b) &&
        (if a.rule.domain == b.rule.domain then LexLe(a.rule.eventType, b.rule.eventType)
         else LexLe(a.rule.domain, b.rule.domain)))
  }

  lemma BeforeIsAnOrder()
    ensures TotalPreorder(Before)
  {
    forall a, b ensures Before(a, b) || Before(b, a) {
      LexTotal(a.rule.domain, b.rule.domain);
      LexTotal(a.rule.eventType, b.rule.eventType);
    }
    forall a, b, c | Before(a, b) && Before(b, c) ensures Before(a, c) {
      BeforeTransitive(a, b, c);
    }
  }

  lemma BeforeTransitive(a: Hit, b: Hit, c: Hit)
    requires Before(a, b) && Before(b, c)
    ensures Before(a, c)
  {
    if Confidence(a) == Confidence(b) == Confidence(c) {
      if a.rule.domain == b.rule.domain == c.rule.domain {
        LexTransitive(a.rule.eventType, b.rule.eventType, c.rule.eventType);
      } else if a.rule.domain != b.rule.domain && b.rule.domain != c.rule.domain {
        LexTransitive(a.rule.domain, b.rule.domain, c.rule.domain);
        LexTotal(a.rule.domain, b.rule.domain);
      }
    }
  }

  function RuleHits(rule: TaxonomyRule, found: string -> bool, k: nat): seq<Hit>
    requires k <= |rule.keywords|
  {
    if k == 0 then []
    else RuleHits(rule, found, k - 1) + (if Fires(rule.keywords[k - 1], found) then [Hit(rule, k - 1)] else [])
  }

  function Hits(rules: seq<TaxonomyRule>, found: string -> bool): seq<Hit> {
    if rules == [] then []
    else
      var last := rules[|rules| - 1];
      Hits(rules[..|rules| - 1], found) + RuleHits(last, found, |last.keywords|)
  }

  function Key(h: Hit): (string, string) {
    (h.rule.domain, h.rule.eventType)
  }

  function TopKeys(hits: seq<Hit>, top: real): set<(string, string)> {
    set h | h in hits && Confidence(h) == top :: Key(h)
  }

  function Choose(hits: seq<Hit>): Classification {
    var ordered := StableSort(hits, Before);
    if ordered == [] then Unclassified
    else
      var h := ordered[0];
      if h.index < |h.rule.keywords| then
        Classified(h.rule.domain, h.rule.eventType, h.rule.keywords[h.index].tags, Confidence(h),
                   |TopKeys(ordered, Confidence(h))| > 1)
      else Unclassified
  }

  /** `classify_signal`. */
  method ClassifySignal(rules: seq<TaxonomyRule>, found: string -> bool) returns (result: Classification)
    ensures result == Choose(Hits(rules, found))
  {
    var matches: seq<Hit> := [];
    for i := 0 to |rules|
      invariant matches == Hits(rules[..i], found)
    {
      assert rules[..i + 1][..i] == rules[..i];
      ghost var earlier := matches;
      for k := 0 to |rules[i].keywords|
        invariant matches == earlier + RuleHits(rules[i], found, k)
      {
        if Fires(rules[i].keywords[k], found) {
          matches := matches + [Hit(rules[i], k)];
        }
      }
    }
    assert rules[..|rules|] == rules;
    result := Choose(matches);
  }

  // ---------------------------------------------------------------- what the choice means

  /** Keyword `k` of a taxonomy rule hits the signal. */
  predicate IsHit(rules: seq<TaxonomyRule>, found: string -> bool, h: Hit) {
    h.rule in rules && h.index < |h.rule.keywords| && Fires(h.rule.keywords[h.index], found)
  }

  ghost predicate DistinctKeys(rules: seq<TaxonomyRule>) {
    forall i, j :: 0 <= i < j < |rules| ==>
      rules[i].domain != rules[j].domain || rules[i].eventType != rules[j].eventType
  }

  /** The winning hit, said without any order of the rules: highest confidence, then first key in
      string order, then first keyword of that rule. */
  ghost predicate Wins(rules: seq<TaxonomyRule>, found: string -> bool, h: Hit) {
    && IsHit(rules, found, h)
    && (forall g :: IsHit(rules, found, g) ==> Before(h, g))
    && (forall g :: IsHit(rules, found, g) && g.rule == h.rule && g.index < h.index ==> Confidence(g) != Confidence(h))
  }

  lemma {:induction false} RuleHitsSorted(rule: TaxonomyRule, found: string -> bool, k: nat)
    requires k <= |rule.keywords|
    ensures var r := RuleHits(rule, found, k);
            && (forall g :: g in r <==> g.rule == rule && g.index < k && Fires(rule.keywords[g.index], found))
            && (forall p, q :: 0 <= p < q < |r| ==> r[p].index < r[q].index)
  {
    if k == 0 {
    } else {
      RuleHitsSorted(rule, found, k - 1);
      var earlier: seq<Hit> := RuleHits(rule, found, k - 1);
      assert forall p :: 0 <= p < |earlier| ==> earlier[p] in earlier;
    }
  }

  lemma {:induction false} HitsAreComplete(rules: seq<TaxonomyRule>, found: string -> bool)
    requires DistinctKeys(rules)
    ensures var r := Hits(rules, found);
            && (forall g :: g in r <==> IsHit(rules, found, g))
            && (forall p, q :: 0 <= p < q < |r| && r[p].rule == r[q].rule ==> r[p].index < r[q].index)
  {
    if rules == [] {
    } else {
      var init, last := rules[..|rules| - 1], rules[|rules| - 1];
      HitsAreComplete(init, found);
      RuleHitsSorted(last, found, |last.keywords|);
      var a: seq<Hit>, b: seq<Hit> := Hits(init, found), RuleHits(last, found, |last.keywords|);
      assert last !in init;
      assert forall r :: r in rules <==> r in init || r == last;
      var r: seq<Hit> := Hits(rules, found);
      assert r == a + b;
      forall p | 0 <= p < |a| ensures a[p].rule in init {
        assert a[p] in a;
        assert IsHit(init, found, a[p]);
      }
      assert forall p :: 0 <= p < |b| ==> b[p] in b && b[p].rule == last;
      forall g ensures g in r <==> IsHit(rules, found, g) {
        assert g in r <==> g in a || g in b;
        assert g in a <==> IsHit(init, found, g);
        assert g in b <==> g.rule == last && IsHit(rules, found, g);
      }
    }
  }

  /** The sorted head is the winner. */
  lemma ChoiceWins(rules: seq<TaxonomyRule>, found: string -> bool) returns (h: Hit)
    requires DistinctKeys(rules) && Hits(rules, found) != []
    ensures Wins(rules, found, h) && StableSort(Hits(rules, found), Before)[0] == h
  {
    hide IsHit, Hits, DistinctKeys;
    var hits: seq<Hit> := Hits(rules, found);
    BeforeIsAnOrder();
    HitsAreComplete(rules, found);
    StableSortSorts(hits, Before);
    var i := StableSortHead(hits, Before);
    h := hits[i];
    assert h in hits;
    forall g | IsHit(rules, found, g) ensures Before(h, g) {
      assert g in hits;
    }
    forall g | IsHit(rules, found, g) && g.rule == h.rule && g.index < h.index ensures Confidence(g) != Confidence(h) {
      assert g in hits;
      var j :| 0 <= j < |hits| && hits[j] == g;
      LexTotal(h.rule.eventType, h.rule.eventType);
    }
  }

  lemma WinnerIsUnique(rules: seq<TaxonomyRule>, found: string -> bool, g: Hit, h: Hit)
    requires DistinctKeys(rules) && Wins(rules, found, g) && Wins(rules, found, h)
    ensures g == h
  {
    LexTotal(g.rule.domain, h.rule.domain);
    LexTotal(g.rule.eventType, h.rule.eventType);
    var i :| 0 <= i < |rules| && rules[i] == g.rule;
    var j :| 0 <= j < |rules| && rules[j] == h.rule;
    assert i == j;
  }

  lemma SameRules(rules: seq<TaxonomyRule>, shuffled: seq<TaxonomyRule>)
    requires DistinctKeys(rules) && multiset(rules) == multiset(shuffled)
    ensures forall r :: r in rules <==> r in shuffled
    ensures DistinctKeys(shuffled)
  {
    forall r ensures r in rules <==> r in shuffled {
      assert r in rules <==> r in multiset(rules);
      assert r in shuffled <==> r in multiset(shuffled);
    }
    forall i, j | 0 <= i < j < |shuffled|
      ensures shuffled[i].domain != shuffled[j].domain || shuffled[i].eventType != shuffled[j].eventType
    {
      AtMostOnce(rules, shuffled[i]);
      var front, back := shuffled[..i + 1], shuffled[i + 1..];
      assert shuffled == front + back;
      assert shuffled[i] in front && shuffled[j] in back;
      assert multiset(shuffled) == multiset(front) + multiset(back);
      assert shuffled[i] != shuffled[j];
      assert shuffled[i] in rules && shuffled[j] in rules;
    }
  }

  lemma {:induction false} AtMostOnce(rules: seq<TaxonomyRule>, r: TaxonomyRule)
    requires DistinctKeys(rules)
    ensures multiset(rules)[r] <= 1
  {
    if rules == [] {
    } else {
      AtMostOnce(rules[1..], r);
      assert rules == [rules[0]] + rules[1..];
      assert rules[0] !in rules[1..];
    }
  }

  /** Two hits with different keys share the confidence `top`. */
  ghost predicate SharedTop(rules: seq<TaxonomyRule>, found: string -> bool, top: real) {
    exists g, h :: TopHit(rules, found, top, g) && TopHit(rules, found, top, h) && Key(g) != Key(h)
  }

  ghost predicate TopHit(rules: seq<TaxonomyRule>, found: string -> bool, top: real, h: Hit) {
    IsHit(rules, found, h) && Confidence(h) == top
  }

  lemma SortedHits(rules: seq<TaxonomyRule>, found: string -> bool)
    requires DistinctKeys(rules)
    ensures forall g :: g in StableSort(Hits(rules, found), Before) <==> IsHit(rules, found, g)
  {
    HitsAreComplete(rules, found);
    BeforeIsAnOrder();
    SortedHasSameElements(Hits(rules, found), Before);
  }

  lemma SharedTopIff(rules: seq<TaxonomyRule>, found: string -> bool, ordered: seq<Hit>, top: real)
    requires forall g :: g in ordered <==> IsHit(rules, found, g)
    ensures SharedTop(rules, found, top) <==> |TopKeys(ordered, top)| > 1
  {
    hide IsHit, Confidence;
    KeysDiffer(ordered, top);
    if g, h :| g in ordered && h in ordered && Confidence(g) == top && Confidence(h) == top && Key(g) != Key(h) {
      assert TopHit(rules, found, top, g) && TopHit(rules, found, top, h);
    }
  }

  /** A conflict is reported exactly when two different keys share the top confidence. */
  lemma ConflictIff(rules: seq<TaxonomyRule>, found: string -> bool)
    requires DistinctKeys(rules) && Hits(rules, found) != []
    ensures var c := Choose(Hits(rules, found));
            c.Classified? && (c.conflict <==> SharedTop(rules, found, c.confidence))
  {
    hide Hits, StableSort, SharedTop;
    var w := ChoiceWins(rules, found);
    SortedHits(rules, found);
    SharedTopIff(rules, found, StableSort(Hits(rules, found), Before), Confidence(w));
  }

  lemma KeysDiffer(hits: seq<Hit>, top: real)
    ensures |TopKeys(hits, top)| > 1 <==>
            exists g, h :: g in hits && h in hits && Confidence(g) == top && Confidence(h) == top && Key(g) != Key(h)
  {
    var keys := TopKeys(hits, top);
    if |keys| > 1 {
      var a :| a in keys;
      assert |keys - {a}| > 0;
      var b :| b in keys - {a};
    }
    if g, h :| g in hits && h in hits && Confidence(g) == top && Confidence(h) == top && Key(g) != Key(h) {
      assert {Key(g), Key(h)} <= keys;
      assert keys == {Key(g), Key(h)} + (keys - {Key(g), Key(h)});
    }
  }

  lemma SameHits(rules: seq<TaxonomyRule>, shuffled: seq<TaxonomyRule>, found: string -> bool)
    requires DistinctKeys(rules) && multiset(rules) == multiset(shuffled)
    ensures DistinctKeys(shuffled)
    ensures forall g :: IsHit(rules, found, g) <==> IsHit(shuffled, found, g)
    ensures Hits(rules, found) == [] <==> Hits(shuffled, found) == []
  {
    SameRules(rules, shuffled);
    forall g ensures IsHit(rules, found, g) <==> IsHit(shuffled, found, g) {
      assert g.rule in rules <==> g.rule in shuffled;
    }
    HitsAreComplete(rules, found);
    HitsAreComplete(shuffled, found);
    var a: seq<Hit>, b: seq<Hit> := Hits(rules, found), Hits(shuffled, found);
    forall g ensures g in a <==> g in b {
      assert g in a <==> IsHit(rules, found, g);
      assert g in b <==> IsHit(shuffled, found, g);
    }
    assert a != [] ==> a[0] in a;
    assert b != [] ==> b[0] in b;
  }

  /** The stored order of taxonomy rules with distinct keys makes no difference to the result. */
  lemma OrderDoesNotMatter(rules: seq<TaxonomyRule>, shuffled: seq<TaxonomyRule>, found: string -> bool)
    requires DistinctKeys(rules) && multiset(rules) == multiset(shuffled)
    ensures Choose(Hits(rules, found)) == Choose(Hits(shuffled, found))
  {
    SameHits(rules, shuffled, found);
    hide Hits, IsHit, DistinctKeys;
    if Hits(rules, found) != [] {
      var g := ChoiceWins(rules, found);
      var h := ChoiceWins(shuffled, found);
      assert Wins(rules, found, h);
      WinnerIsUnique(rules, found, g, h);
      ConflictIff(rules, found);
      ConflictIff(shuffled, found);
    }
  }

  // ---------------------------------------------------------------- from the rules

  /** One text is a prefix of the other, or smaller at the first difference. */
  lemma {:induction false} LexLeIff(a: string, b: string)
    ensures LexLe(a, b) <==> a <= b || exists k :: 0 <= k < |a| && k < |b| && a[..k] == b[..k] && a[k] < b[k]
  {
    if a == [] || b == [] {
    } else if a[0] != b[0] {
      assert a[..0] == b[..0];
    } else {
      LexLeIff(a[1..], b[1..]);
      assert a == [a[0]] + a[1..] && b == [b[0]] + b[1..];
      if k :| 0 <= k < |a| - 1 && k < |b| - 1 && a[1..][..k] == b[1..][..k] && a[1..][k] < b[1..][k] {
        assert a[..k + 1] == [a[0]] + a[1..][..k] && b[..k + 1] == [b[0]] + b[1..][..k];
      }
      if k :| 0 <= k < |a| && k < |b| && a[..k] == b[..k] && a[k] < b[k] {
        assert k > 0 && a[1..][..k - 1] == a[..k][1..] && b[1..][..k - 1] == b[..k][1..];
        assert a[1..][k - 1] == a[k] && b[1..][k - 1] == b[k];
      }
    }
  }

  /** Keyword `i` of `rule` has all its expressions in the signal. */
  predicate KeywordFires(rules: seq<TaxonomyRule>, found: string -> bool, rule: TaxonomyRule, i: nat) {
    rule in rules && i < |rule.keywords| && forall e :: e in rule.keywords[i].expressions ==> found(e)
  }

  /** The keyword counts for more: higher confidence, else smaller domain, else smaller event type, else
      earlier in its rule. */
  predicate Beats(rule: TaxonomyRule, i: nat, other: TaxonomyRule, j: nat)
    requires i < |rule.keywords| && j < |other.keywords|
  {
    var c, d := rule.keywords[i].confidence, other.keywords[j].confidence;
    || c > d
    || (c == d && rule.domain != other.domain && LexLe(rule.domain, other.domain))
    || (c == d && rule.domain == other.domain && rule.eventType != other.eventType &&
        LexLe(rule.eventType, other.eventType))
    || (c == d && rule == other && i < j)
  }

  /** The result is that of the keyword that beats all other firing ones. */
  ghost predicate IsOutcome(rules: seq<TaxonomyRule>, found: string -> bool, c: Classification, rule: TaxonomyRule,
                            i: nat) {
    && KeywordFires(rules, found, rule, i)
    && (forall other, j: nat :: KeywordFires(rules, found, other, j) && (other, j) != (rule, i) ==>
          Beats(rule, i, other, j))
    && c == Classified(rule.domain, rule.eventType, rule.keywords[i].tags, rule.keywords[i].confidence,
                       IsContested(rules, found, rule, i))
  }

  /** A firing keyword of another domain or event type has the same confidence. */
  ghost predicate IsContested(rules: seq<TaxonomyRule>, found: string -> bool, rule: TaxonomyRule, i: nat)
    requires i < |rule.keywords|
  {
    exists other, j: nat ::
      KeywordFires(rules, found, other, j) && other.keywords[j].confidence == rule.keywords[i].confidence &&
      (other.domain != rule.domain || other.eventType != rule.eventType)
  }

  lemma KeywordFiresIff(rules: seq<TaxonomyRule>, found: string -> bool, h: Hit)
    ensures IsHit(rules, found, h) <==> KeywordFires(rules, found, h.rule, h.index)
  {
    if h.rule in rules && h.index < |h.rule.keywords| {
      var expressions := h.rule.keywords[h.index].expressions;
      assert forall i :: 0 <= i < |expressions| ==> expressions[i] in expressions;
    }
  }

  lemma WinnerBeats(rules: seq<TaxonomyRule>, found: string -> bool, h: Hit, other: TaxonomyRule, j: nat)
    requires DistinctKeys(rules) && Wins(rules, found, h)
    requires KeywordFires(rules, found, other, j) && (other, j) != (h.rule, h.index)
    ensures h.index < |h.rule.keywords| && Beats(h.rule, h.index, other, j)
  {
    var g := Hit(other, j);
    KeywordFiresIff(rules, found, g);
    assert Before(h, g);
    if h.rule.domain == other.domain && h.rule.eventType == other.eventType {
      var m :| 0 <= m < |rules| && rules[m] == h.rule;
      var n :| 0 <= n < |rules| && rules[n] == other;
      assert m == n;
    }
  }

  lemma ContestedIff(rules: seq<TaxonomyRule>, found: string -> bool, h: Hit)
    requires IsHit(rules, found, h)
    ensures SharedTop(rules, found, Confidence(h)) <==> IsContested(rules, found, h.rule, h.index)
  {
    var top := Confidence(h);
    assert TopHit(rules, found, top, h);
    if SharedTop(rules, found, top) {
      var a, b :| TopHit(rules, found, top, a) && TopHit(rules, found, top, b) && Key(a) != Key(b);
      var g := if Key(a) != Key(h) then a else b;
      KeywordFiresIff(rules, found, g);
      assert KeywordFires(rules, found, g.rule, g.index) && Confidence(g) == top;
    }
    if IsContested(rules, found, h.rule, h.index) {
      var other, j: nat :| KeywordFires(rules, found, other, j) && other.keywords[j].confidence == top &&
                           (other.domain != h.rule.domain || other.eventType != h.rule.eventType);
      KeywordFiresIff(rules, found, Hit(other, j));
      assert TopHit(rules, found, top, Hit(other, j));
    }
  }

  /** A signal is unclassified exactly when no keyword fires; else the best firing keyword decides, and a
      conflict is one of its rivals with the same confidence. */
  lemma ClassificationInPlainTerms(rules: seq<TaxonomyRule>, found: string -> bool)
    requires DistinctKeys(rules)
    ensures var c := Choose(Hits(rules, found));
            if exists rule, i: nat :: KeywordFires(rules, found, rule, i)
            then exists rule, i: nat :: IsOutcome(rules, found, c, rule, i)
            else c == Unclassified
  {
    HitsAreComplete(rules, found);
    var hits: seq<Hit> := Hits(rules, found);
    if rule, i: nat :| KeywordFires(rules, found, rule, i) {
      KeywordFiresIff(rules, found, Hit(rule, i));
      assert Hit(rule, i) in hits;
    }
    if hits != [] {
      var h := ChoiceWins(rules, found);
      KeywordFiresIff(rules, found, h);
      ConflictIff(rules, found);
      ContestedIff(rules, found, h);
      forall other, j: nat | KeywordFires(rules, found, other, j) && (other, j) != (h.rule, h.index)
        ensures Beats(h.rule, h.index, other, j)
      {
        WinnerBeats(rules, found, h, other, j);
      }
      hide Hits, Wins, DistinctKeys, StableSort, SharedTop, IsContested, Beats, KeywordFires;
      assert IsOutcome(rules, found, Choose(hits), h.rule, h.index);
    } else {
      BeforeIsAnOrder();
      StableSortSorts(hits, Before);
    }
  }
}
