/** The bounded discovery query and the rotation that decides which registry rows feed it. `space`
    is Python's notion of whitespace in `str.split`. */
module Discovery {
  import opened Seqs
  import opened Text

  const MAX_QUERY_CHARACTERS := 220
  const ANCHORS: seq<string> := ["fintech", "payments", "digital bank"]
  const TAIL := ") (Nigeria OR Nigerian)"

  function WithoutQuotes(s: string): (r: string)
    ensures |r| == |s| && '"' !in r
  {
    if s == [] then "" else [if s[0] == '"' then ' ' else s[0]] + WithoutQuotes(s[1..])
  }

  /** `_quoted`. */
  function Quoted(value: string, space: char -> bool): string {
    "\"" + Collapse(WithoutQuotes(value), space) + "\""
  }

  /** `" OR ".join(_quoted(t) for t in terms)`. */
  function Alternatives(terms: seq<string>, space: char -> bool): string {
    if terms == [] then ""
    else if |terms| == 1 then Quoted(terms[0], space)
    else Alternatives(terms[..|terms| - 1], space) + " OR " + Quoted(terms[|terms| - 1], space)
  }

  function Query(terms: seq<string>, space: char -> bool): string {
    "(" + Alternatives(terms, space) + TAIL
  }

  predicate Fits(terms: seq<string>, space: char -> bool) {
    |Query(terms, space)| <= MAX_QUERY_CHARACTERS
  }

  /** Greedy selection, left to right. */
  function Select(terms: seq<string>, space: char -> bool): seq<string> {
    if terms == [] then []
    else
      var selected, term := Select(terms[..|terms| - 1], space), terms[|terms| - 1];
      if Fits(selected + [term], space) then selected + [term] else selected
  }

  function Terms(taxonomy: seq<string>, entities: seq<string>): seq<string> {
    Distinct(ANCHORS + taxonomy + entities)
  }

  /** The query of `build_gdelt_url`. */
  method BuildQuery(entities: seq<string>, taxonomy: seq<string>, space: char -> bool) returns (query: string)
    ensures query == Query(Select(Terms(taxonomy, entities), space), space)
  {
    var terms := Distinct(ANCHORS + taxonomy + entities);
    var selected: seq<string> := [];
    for i := 0 to |terms|
      invariant selected == Select(terms[..i], space)
    {
      assert terms[..i + 1][..i] == terms[..i];
      var candidate := selected + [terms[i]];
      if |Query(candidate, space)| <= MAX_QUERY_CHARACTERS {
        selected := candidate;
      }
    }
    assert terms[..|terms|] == terms;
    query := Query(selected, space);
  }

  // ---------------------------------------------------------------- lengths

  lemma {:induction false} CollapseNoLonger(s: string, space: char -> bool)
    ensures |Collapse(s, space)| <= |s|
  {
    if s == [] {
    } else {
      CollapseNoLonger(s[1..], space);
      if !space(s[0]) {
        if |s| > 1 {
          CollapseNoLonger(s[1..][1..], space);
          CollapseStep(s, space);
          assert space(s[1]) ==> Words(s[1..], space) == Words(s[1..][1..], space);
        } else {
          assert Words(s, space) == [[s[0]]];
        }
      }
    }
  }

  lemma AppendGrows(terms: seq<string>, term: string, space: char -> bool)
    ensures |Query(terms + [term], space)| ==
            |Query(terms, space)| + |Quoted(term, space)| + (if terms == [] then 0 else 4)
  {
    assert (terms + [term])[..|terms|] == terms;
  }

  /** A longer selection only makes room scarcer. */
  lemma {:induction false} OverflowPersists(selected: seq<string>, more: seq<string>, term: string, space: char -> bool)
    requires selected != [] && !Fits(selected + [term], space)
    ensures !Fits(selected + more + [term], space)
    ensures |Query(selected + more, space)| >= |Query(selected, space)|
  {
    hide Query;
    AppendGrows(selected, term, space);
    AppendGrows(selected + more, term, space);
    if more == [] {
      assert selected + more == selected;
    } else {
      var init := more[..|more| - 1];
      OverflowPersists(selected, init, term, space);
      assert selected + more == selected + init + [more[|more| - 1]];
      AppendGrows(selected + init, more[|more| - 1], space);
      AppendGrows(selected + init, term, space);
    }
  }

  // ---------------------------------------------------------------- the selection

  lemma {:induction false} SelectIsPrefixStable(terms: seq<string>, more: seq<string>, space: char -> bool)
    ensures Select(terms, space) <= Select(terms + more, space)
  {
    if more == [] {
      assert terms + more == terms;
    } else {
      assert (terms + more)[..|terms + more| - 1] == terms + more[..|more| - 1];
      SelectIsPrefixStable(terms, more[..|more| - 1], space);
    }
  }

  lemma QuotedAddsTwo(t: string, space: char -> bool)
    ensures |Quoted(t, space)| <= |t| + 2
  {
    CollapseNoLonger(WithoutQuotes(t), space);
  }

  lemma ThreeShortTermsFit(a: string, b: string, c: string, space: char -> bool)
    requires |a| + |b| + |c| <= 27
    ensures Select([a, b, c], space) == [a, b, c]
  {
    var none: seq<string>, one, two := [], [a], [a, b];
    QuotedAddsTwo(a, space);
    QuotedAddsTwo(b, space);
    QuotedAddsTwo(c, space);
    AppendGrows(none, a, space);
    AppendGrows(one, b, space);
    AppendGrows(two, c, space);
    assert |Query(none, space)| == 1 + |TAIL| == 24;
    assert none + [a] == one && one + [b] == two && two + [c] == [a, b, c];
    assert [a, b, c][..2] == two && two[..1] == one && one[..0] == none;
    assert Fits(one, space) && Fits(two, space) && Fits([a, b, c], space);
    assert Select(one, space) == one;
    assert two[..|two| - 1] == one && two[|two| - 1] == b;
    assert Select(two, space) == two;
  }

  lemma AnchorsFit(space: char -> bool)
    ensures Select(ANCHORS, space) == ANCHORS
  {
    ThreeShortTermsFit("fintech", "payments", "digital bank", space);
  }

  /** Selected terms are distinct members of the input, in its order. */
  lemma {:induction false} SelectPicks(terms: seq<string>, space: char -> bool)
    requires Unique(terms)
    ensures Unique(Select(terms, space))
    ensures forall t :: t in Select(terms, space) ==> t in terms
  {
    if terms == [] {
    } else {
      var init, last := terms[..|terms| - 1], terms[|terms| - 1];
      SelectPicks(init, space);
      assert last !in init;
    }
  }

  lemma SelectKeepsAnchors(terms: seq<string>, space: char -> bool)
    requires ANCHORS <= terms
    ensures ANCHORS <= Select(terms, space)
  {
    hide Select;
    var anchors := ANCHORS;
    AnchorsFit(space);
    assert terms == anchors + terms[|anchors|..];
    SelectIsPrefixStable(anchors, terms[|anchors|..], space);
  }

  lemma AnchorsComeBefore(terms: seq<string>, space: char -> bool, t: string)
    requires ANCHORS <= terms && t in terms && t !in Select(terms, space)
    ensures ANCHORS <= terms[..|terms| - 1]
  {
    hide Select;
    SelectKeepsAnchors(terms, space);
    var anchors := ANCHORS;
    assert terms != anchors;
  }

  /** Every omitted term would overflow the limit if appended to the selection made so far. */
  lemma {:induction false} OmittedOverflow(terms: seq<string>, space: char -> bool, t: string)
    requires ANCHORS <= terms && t in terms && t !in Select(terms, space)
    ensures !Fits(Select(terms, space) + [t], space)
  {
    var init, last := terms[..|terms| - 1], terms[|terms| - 1];
    AnchorsComeBefore(terms, space, t);
    SelectKeepsAnchors(init, space);
    var before := Select(init, space);
    assert before != [];
    hide Fits;
    if t in init {
      OmittedOverflow(init, space, t);
      OverflowPersists(before, [last], t, space);
    }
  }

  /** For every registry: the query is at most 220 characters, keeps the three anchors in front,
      repeats nothing, invents nothing, and no omitted term would still fit. */
  lemma QueryIsBoundedAndMaximal(taxonomy: seq<string>, entities: seq<string>, space: char -> bool)
    ensures var terms := Terms(taxonomy, entities);
            var selected := Select(terms, space);
            && Fits(selected, space)
            && ANCHORS <= selected
            && Unique(selected)
            && (forall t :: t in selected ==> t in ANCHORS + taxonomy + entities)
            && (forall t :: t in ANCHORS + taxonomy + entities && t !in selected ==> !Fits(selected + [t], space))
  {
    var all, terms := ANCHORS + taxonomy + entities, Terms(taxonomy, entities);
    AnchorsAreDistinct();
    DistinctIsIncremental(ANCHORS, taxonomy + entities);
    assert all == ANCHORS + (taxonomy + entities);
    assert terms == ANCHORS + terms[3..];
    AnchorsFit(space);
    SelectIsPrefixStable(ANCHORS, terms[3..], space);
    SelectPicks(terms, space);
    SelectFits(terms, space);
    forall t | t in all && t !in Select(terms, space) ensures !Fits(Select(terms, space) + [t], space) {
      OmittedOverflow(terms, space, t);
    }
  }

  lemma {:induction false} SelectFits(terms: seq<string>, space: char -> bool)
    ensures Fits(Select(terms, space), space)
  {
    if terms == [] {
      assert Query([], space) == "(" + "" + TAIL;
    } else {
      SelectFits(terms[..|terms| - 1], space);
    }
  }

  lemma AnchorsAreDistinct()
    ensures Distinct(ANCHORS) == ANCHORS
  {
    var one, two := ["fintech"], ["fintech", "payments"];
    assert ANCHORS[..2] == two && two[..1] == one && one[..0] == [];
    assert one[0] == "fintech" && |"fintech"| == 7 && |"payments"| == 8 && |"digital bank"| == 12;
    assert Distinct(one) == one;
    assert Distinct(two) == two;
  }

  /** Entities never displace a taxonomy term: what is selected without them stays selected, in
      front. */
  lemma TaxonomyHasPriority(taxonomy: seq<string>, entities: seq<string>, space: char -> bool)
    ensures Select(Terms(taxonomy, []), space) <= Select(Terms(taxonomy, entities), space)
  {
    assert ANCHORS + taxonomy + [] == ANCHORS + taxonomy;
    DistinctIsIncremental(ANCHORS + taxonomy, entities);
    var few, many := Terms(taxonomy, []), Terms(taxonomy, entities);
    assert many == few + many[|few|..];
    SelectIsPrefixStable(few, many[|few|..], space);
  }

  // ---------------------------------------------------------------- in plain terms

  /** The term in quotes: its own quote characters count as spaces, and its words stay, in order, single
      spaces apart. */
  ghost predicate IsQuoted(q: string, term: string, space: char -> bool) {
    exists spaced, phrase ::
      && |spaced| == |term| && (forall i :: 0 <= i < |term| ==> spaced[i] == if term[i] == '"' then ' ' else term[i])
      && Tidy(phrase, space) && Words(phrase, space) == Words(spaced, space)
      && q == "\"" + phrase + "\""
  }

  lemma {:induction false} WithoutQuotesAt(s: string)
    ensures forall i :: 0 <= i < |s| ==> WithoutQuotes(s)[i] == if s[i] == '"' then ' ' else s[i]
  {
    if s == [] {
    } else {
      WithoutQuotesAt(s[1..]);
    }
  }

  lemma QuotedInPlainTerms(term: string, space: char -> bool)
    requires space(' ')
    ensures IsQuoted(Quoted(term, space), term, space)
  {
    WithoutQuotesAt(term);
    CollapsedIsTidy(WithoutQuotes(term), space);
    hide WithoutQuotes, Collapse, Words, Tidy;
  }

  /** `r` is the query with the alternatives `a`. */
  predicate IsQueryOf(r: string, a: string) {
    r == "(" + a + ") (Nigeria OR Nigerian)"
  }

  /** The query holds the quoted terms, in order, joined by " OR ". */
  lemma QueryInPlainTerms(terms: seq<string>, term: string, space: char -> bool)
    requires space(' ')
    ensures IsQueryOf(Query([], space), "")
    ensures exists q :: IsQuoted(q, term, space) && IsQueryOf(Query([term], space), q) &&
              (terms != [] ==>
                 exists a :: IsQueryOf(Query(terms, space), a) &&
                   IsQueryOf(Query(terms + [term], space), a + " OR " + q))
  {
    var q, a := Quoted(term, space), Alternatives(terms, space);
    QuotedInPlainTerms(term, space);
    assert (terms + [term])[..|terms|] == terms;
    assert terms != [] ==> Alternatives(terms + [term], space) == a + " OR " + q;
    hide IsQuoted, Quoted, Alternatives;
    assert IsQueryOf(Query(terms, space), a);
    assert terms != [] ==> IsQueryOf(Query(terms + [term], space), a + " OR " + q);
  }

  lemma {:induction false} SameSelection(terms: seq<string>, p: string -> bool, q: string -> bool)
    requires forall t :: t in terms ==> p(t) == q(t)
    ensures Filter(terms, p) == Filter(terms, q)
  {
    if terms == [] {
    } else {
      SameSelection(terms[1..], p, q);
    }
  }

  lemma {:induction false} SelectIsFilter(terms: seq<string>, space: char -> bool)
    requires Unique(terms)
    ensures Select(terms, space) == Filter(terms, (t: string) => t in Select(terms, space))
  {
    if terms == [] {
    } else {
      var init, last := terms[..|terms| - 1], terms[|terms| - 1];
      SelectIsFilter(init, space);
      SelectPicks(init, space);
      assert last !in init;
      var before, after := Select(init, space), Select(terms, space);
      assert after == before || after == before + [last];
      hide Select, Filter, Unique;
      FilterSnoc(init, last, before, after);
      assert terms == init + [last];
    }
  }

  lemma FilterSnoc(init: seq<string>, last: string, before: seq<string>, after: seq<string>)
    requires before == Filter(init, (t: string) => t in before) && last !in init
    requires after == before || after == before + [last]
    ensures after == Filter(init + [last], (t: string) => t in after)
  {
    assert last !in before;
    SameSelection(init, (t: string) => t in before, (t: string) => t in after);
    FilterConcat(init, [last], (t: string) => t in after);
  }

  /** The choice is greedy: a term is selected exactly when it still fits behind the selected terms before it. */
  lemma SelectIsGreedy(terms: seq<string>, space: char -> bool, i: nat)
    requires Unique(terms) && i < |terms|
    ensures var selected := Select(terms, space);
            && selected == Filter(terms, (t: string) => t in selected)
            && (terms[i] in selected <==>
                |Query(Filter(terms[..i], (t: string) => t in selected) + [terms[i]], space)| <= 220)
  {
    var selected, before := Select(terms, space), Select(terms[..i], space);
    SelectIsFilter(terms, space);
    SelectedEarly(terms, space, i);
    SelectedEarly(terms, space, i + 1);
    assert terms[..i + 1][..i] == terms[..i];
    SelectPicks(terms[..i], space);
    assert terms[i] !in terms[..i];
    assert terms[i] in Filter(terms[..i + 1], (t: string) => t in selected) <==> terms[i] in selected;
    hide Query;
  }

  lemma SelectedEarly(terms: seq<string>, space: char -> bool, i: nat)
    requires Unique(terms) && i <= |terms|
    ensures Select(terms[..i], space) == Filter(terms[..i], (t: string) => t in Select(terms, space))
  {
    hide Select, Filter;
    var early, all := terms[..i], Select(terms, space);
    SelectIsFilter(early, space);
    assert terms == early + terms[i..];
    forall t | t in early ensures t in Select(early, space) <==> t in all {
      LaterTermsStayOut(early, terms[i..], space, t);
    }
    SameSelection(early, (t: string) => t in Select(early, space), (t: string) => t in all);
  }

  lemma OneMoreTerm(terms: seq<string>, last: string, space: char -> bool, t: string)
    requires t in terms && last !in terms
    ensures t in Select(terms, space) <==> t in Select(terms + [last], space)
  {
    assert (terms + [last])[..|terms|] == terms;
  }

  lemma {:induction false} LaterTermsStayOut(early: seq<string>, more: seq<string>, space: char -> bool, t: string)
    requires t in early && Unique(early + more)
    ensures t in Select(early, space) <==> t in Select(early + more, space)
  {
    hide Select;
    if more == [] {
      assert early + more == early;
    } else {
      var init, last := more[..|more| - 1], more[|more| - 1];
      assert early + more == (early + init) + [last];
      assert forall j :: 0 <= j < |early + init| ==> (early + more)[j] == (early + init)[j];
      assert (early + more)[|early + init|] == last;
      LaterTermsStayOut(early, init, space, t);
      OneMoreTerm(early + init, last, space, t);
    }
  }

  // ---------------------------------------------------------------- rotation

  function Wrap(offset: int, k: nat, n: nat): (r: nat)
    requires n > 0
    ensures r < n
  {
    (offset + k) % n
  }

  /** The indices `(offset + k) % n`. */
  function Window(n: nat, offset: int, size: nat): (w: seq<nat>)
    requires n > 0
    ensures |w| == Min(size, n)
    ensures forall k :: 0 <= k < |w| ==> w[k] < n
  {
    assert forall k: nat :: Wrap(offset, k, n) < n;
    seq(Min(size, n), k requires 0 <= k < Min(size, n) => Wrap(offset, k, n))
  }

  /** `_rotating_slice`. */
  function RotatingSlice<T>(values: seq<T>, offset: int, size: nat): seq<T> {
    seq(Min(size, |values|), k requires 0 <= k < Min(size, |values|) => values[Wrap(offset, k, |values|)])
  }

  lemma ModStep(a: int, b: int, n: nat)
    requires 0 <= b < n
    ensures (a + b) % n == if a % n + b < n then a % n + b else a % n + b - n
  {
    var q, r := a / n, a % n;
    assert a == q * n + r;
    if r + b < n {
      ModIs(a + b, q, r + b, n);
    } else {
      assert a + b == (q + 1) * n + (r + b - n);
      ModIs(a + b, q + 1, r + b - n, n);
    }
  }

  lemma QuotientIsUnique(p: int, s: int, q: int, r: int, n: nat)
    requires 0 <= r < n && 0 <= s < n && p * n + s == q * n + r
    ensures p == q && s == r
  {
    assert (p - q) * n == r - s;
    if p > q {
      AtLeastOnce(p - q, n);
    } else if q > p {
      assert (q - p) * n == s - r;
      AtLeastOnce(q - p, n);
    }
  }

  lemma AtLeastOnce(k: int, n: nat)
    requires k >= 1
    ensures k * n >= n
  {
    assert k * n == (k - 1) * n + n;
  }

  lemma ModIs(a: int, q: int, r: int, n: nat)
    requires 0 <= r < n && a == q * n + r
    ensures a % n == r
  {
    QuotientIsUnique(a / n, a % n, q, r, n);
  }

  /** No index is offered twice in one window. */
  lemma WindowIsUnique(n: nat, offset: int, size: nat)
    requires n > 0
    ensures Unique(Window(n, offset, size))
  {
    var w := Window(n, offset, size);
    forall i, j | 0 <= i < j < |w| ensures w[i] != w[j] {
      ModStep(offset, i, n);
      ModStep(offset, j, n);
    }
  }

  lemma LandsOn(n: nat, offset: int, k: nat, v: nat)
    requires v < n && k < n
    ensures (offset + k) % n == v <==> k == (v - offset) % n
  {
    var q := (offset + k) / n;
    if (offset + k) % n == v {
      assert v - offset == (-q) * n + k;
      ModIs(v - offset, -q, k, n);
    }
    if k == (v - offset) % n {
      var p := (v - offset) / n;
      assert offset + k == (-p) * n + v;
      ModIs(offset + k, -p, v, n);
    }
  }

  /** Index `v` is in the window at `offset` iff it is fewer than `size` places after the offset. */
  lemma OfferedIff(n: nat, offset: int, size: nat, v: nat)
    requires v < n
    ensures v in Window(n, offset, size) <==> (v - offset) % n < Min(size, n)
  {
    var w: seq<nat>, d := Window(n, offset, size), (v - offset) % n;
    forall k: nat | k < |w| ensures w[k] == v <==> k == d {
      LandsOn(n, offset, k, v);
    }
    if d < |w| {
      assert w[d] == v;
    }
  }

  /** How many of the `len` windows from `start` on offer index `v`. */
  function TimesOffered(n: nat, size: nat, v: nat, start: int, len: nat): nat
    requires n > 0
  {
    if len == 0 then 0
    else TimesOffered(n, size, v, start, len - 1) + (if v in Window(n, start + len - 1, size) then 1 else 0)
  }

  lemma {:induction false} TimesSplit(n: nat, size: nat, v: nat, start: int, len: nat)
    requires n > 0
    ensures TimesOffered(n, size, v, start, len + 1) ==
            (if v in Window(n, start, size) then 1 else 0) + TimesOffered(n, size, v, start + 1, len)
  {
    if len == 0 {
    } else {
      TimesSplit(n, size, v, start, len - 1);
    }
  }

  lemma Periodic(n: nat, offset: int, size: nat, v: nat)
    requires v < n
    ensures v in Window(n, offset + n, size) <==> v in Window(n, offset, size)
  {
    OfferedIff(n, offset, size, v);
    OfferedIff(n, offset + n, size, v);
    var q, r := (v - offset) / n, (v - offset) % n;
    assert v - (offset + n) == (q - 1) * n + r;
    ModIs(v - (offset + n), q - 1, r, n);
  }

  lemma TimesShift(n: nat, size: nat, v: nat, start: int)
    requires v < n
    ensures TimesOffered(n, size, v, start + 1, n) == TimesOffered(n, size, v, start, n)
  {
    TimesSplit(n, size, v, start, n);
    Periodic(n, start, size, v);
  }

  lemma {:induction false} TimesAnywhere(n: nat, size: nat, v: nat, start: int, shift: nat)
    requires v < n
    ensures TimesOffered(n, size, v, start + shift, n) == TimesOffered(n, size, v, start, n)
  {
    if shift == 0 {
    } else {
      TimesAnywhere(n, size, v, start, shift - 1);
      TimesShift(n, size, v, start + shift - 1);
    }
  }

  /** Offsets that run up to `v`: the last `Min(size, n)` of them see it. */
  lemma {:induction false} TimesUpTo(n: nat, size: nat, v: nat, len: nat)
    requires v < n && len <= n
    ensures TimesOffered(n, size, v, v - n + 1, len) ==
            (if len <= n - Min(size, n) then 0 else len - (n - Min(size, n)))
  {
    if len == 0 {
    } else {
      TimesUpTo(n, size, v, len - 1);
      var offset := v - n + len;
      OfferedIff(n, offset, size, v);
      ModIs(v - offset, 0, n - len, n);
    }
  }

  /** Over any `n` consecutive offsets every one of the `n` values is offered exactly
      `min(size, n)` times. */
  lemma RotationIsFair(n: nat, size: nat, v: nat, start: int)
    requires v < n
    ensures TimesOffered(n, size, v, start, n) == Min(size, n)
  {
    var base := v - n + 1;
    TimesUpTo(n, size, v, n);
    if start >= base {
      TimesAnywhere(n, size, v, base, start - base);
    } else {
      TimesAnywhere(n, size, v, start, base - start);
    }
  }

  // ---------------------------------------------------------------- what the slices hold

  /** Everything the `len` slices from `start` on hold, counted with repetition. */
  function Offered<T(==)>(values: seq<T>, size: nat, start: int, len: nat): multiset<T> {
    if len == 0 then multiset{}
    else Offered(values, size, start, len - 1) + multiset(RotatingSlice(values, start + len - 1, size))
  }

  lemma {:induction false} OfferedSplit<T>(values: seq<T>, size: nat, start: int, len: nat)
    ensures Offered(values, size, start, len + 1) ==
            multiset(RotatingSlice(values, start, size)) + Offered(values, size, start + 1, len)
  {
    hide RotatingSlice;
    if len == 0 {
    } else {
      OfferedSplit(values, size, start, len - 1);
    }
  }

  lemma SliceAt<T>(values: seq<T>, size: nat, start: int, k: nat)
    requires k < Min(size, |values|)
    ensures |RotatingSlice(values, start, size)| == Min(size, |values|)
    ensures RotatingSlice(values, start, size)[k] == values[Wrap(start, k, |values|)]
  {
  }

  lemma SliceIsPeriodic<T>(values: seq<T>, size: nat, start: int)
    ensures RotatingSlice(values, start + |values|, size) == RotatingSlice(values, start, size)
  {
    var n := |values|;
    var a: seq<T>, b: seq<T> := RotatingSlice(values, start + n, size), RotatingSlice(values, start, size);
    assert |a| == |b| == Min(size, n);
    hide RotatingSlice, Wrap;
    forall k: nat | k < |a| ensures a[k] == b[k] {
      WrapIsPeriodic(start, k, n);
      SliceAt(values, size, start, k);
      SliceAt(values, size, start + n, k);
    }
  }

  lemma SliceGrows<T>(values: seq<T>, size: nat, o: int)
    requires size < |values|
    ensures RotatingSlice(values, o, size + 1) == RotatingSlice(values, o, size) + RotatingSlice(values, o + size, 1)
  {
    var a: seq<T>, b: seq<T> := RotatingSlice(values, o, size + 1),
        RotatingSlice(values, o, size) + RotatingSlice(values, o + size, 1);
    assert Wrap(o, size, |values|) == Wrap(o + size, 0, |values|);
    hide Wrap;
    assert |a| == |b| == size + 1;
    hide RotatingSlice;
    forall k: nat | k < |a| ensures a[k] == b[k] {
      SliceAt(values, size + 1, o, k);
      if k < size {
        SliceAt(values, size, o, k);
      } else {
        SliceAt(values, 1, o + size, 0);
      }
    }
  }

  lemma WrapIsPeriodic(start: int, k: nat, n: nat)
    requires n > 0
    ensures Wrap(start + n, k, n) == Wrap(start, k, n)
  {
    var q, r := (start + k) / n, (start + k) % n;
    assert start + n + k == (q + 1) * n + r;
    ModIs(start + n + k, q + 1, r, n);
  }

  lemma Cancel<T>(a: multiset<T>, b: multiset<T>, m: multiset<T>)
    requires a + m == m + b
    ensures a == b
  {
    assert a == (a + m) - m && b == (m + b) - m;
  }

  lemma {:induction false} OfferedAnywhere<T>(values: seq<T>, size: nat, start: int, shift: nat)
    ensures Offered(values, size, start + shift, |values|) == Offered(values, size, start, |values|)
  {
    hide RotatingSlice;
    if shift == 0 {
    } else {
      var s := start + shift - 1;
      OfferedAnywhere(values, size, start, shift - 1);
      OfferedSplit(values, size, s, |values|);
      SliceIsPeriodic(values, size, s);
      var m := multiset(RotatingSlice(values, s, size));
      var a, b := Offered(values, size, s, |values|), Offered(values, size, s + 1, |values|);
      Cancel(a, b, m);
    }
  }

  lemma {:induction false} FirstRound<T>(values: seq<T>, len: nat)
    requires len <= |values|
    ensures Offered(values, 1, 0, len) == multiset(values[..len])
  {
    if len == 0 {
    } else {
      FirstRound(values, len - 1);
      ModIs(len - 1, 0, len - 1, |values|);
      SliceAt(values, 1, len - 1, 0);
      assert RotatingSlice(values, len - 1, 1) == [values[len - 1]];
      assert values[..len] == values[..len - 1] + [values[len - 1]];
    }
  }

  lemma {:induction false} OneMoreColumn<T>(values: seq<T>, size: nat, start: int, len: nat)
    requires size < |values|
    ensures Offered(values, size + 1, start, len) ==
            Offered(values, size, start, len) + Offered(values, 1, start + size, len)
  {
    hide RotatingSlice;
    if len == 0 {
    } else {
      OneMoreColumn(values, size, start, len - 1);
      var o := start + len - 1;
      SliceGrows(values, size, o);
      var slice: seq<T>, column: seq<T> := RotatingSlice(values, o, size), RotatingSlice(values, o + size, 1);
      assert Offered(values, size, start, len) == Offered(values, size, start, len - 1) + multiset(slice);
      assert Offered(values, 1, start + size, len) == Offered(values, 1, start + size, len - 1) + multiset(column) by {
        assert o + size == start + size + len - 1;
      }
      assert multiset(slice + column) == multiset(slice) + multiset(column);
      hide Offered;
    }
  }

  /** Over any full round of consecutive offsets, the slices together hold every value exactly
      `min(size, n)` times as often as the registry does. */
  lemma {:induction false} RoundOffersEveryValue<T(!new)>(values: seq<T>, size: nat, start: int, x: T)
    ensures Offered(values, size, start, |values|)[x] == Min(size, |values|) * multiset(values)[x]
  {
    hide RotatingSlice, Offered;
    var n := |values|;
    if size == 0 || n == 0 {
      NothingOffered(values, size, start, n);
    } else if size > n {
      RoundOffersEveryValue(values, n, start, x);
      SameSlices(values, size, start, n);
    } else {
      RoundOffersEveryValue(values, size - 1, start, x);
      OneMoreColumn(values, size - 1, start, n);
      ColumnHoldsAll(values, start + size - 1);
      assert size * multiset(values)[x] == (size - 1) * multiset(values)[x] + multiset(values)[x];
    }
  }

  lemma ColumnHoldsAll<T>(values: seq<T>, first: int)
    ensures Offered(values, 1, first, |values|) == multiset(values)
  {
    hide RotatingSlice, Offered;
    FirstRound(values, |values|);
    assert values[..|values|] == values;
    if first >= 0 {
      OfferedAnywhere(values, 1, 0, first);
    } else {
      OfferedAnywhere(values, 1, first, -first);
    }
  }

  lemma {:induction false} NothingOffered<T>(values: seq<T>, size: nat, start: int, len: nat)
    requires size == 0 || values == []
    ensures Offered(values, size, start, len) == multiset{}
  {
    if len == 0 {
    } else {
      NothingOffered(values, size, start, len - 1);
    }
  }

  lemma {:induction false} SameSlices<T>(values: seq<T>, size: nat, start: int, len: nat)
    requires size >= |values|
    ensures Offered(values, size, start, len) == Offered(values, |values|, start, len)
  {
    hide Wrap;
    if len == 0 {
    } else {
      SameSlices(values, size, start, len - 1);
      SliceIsCapped(values, size, start + len - 1);
    }
  }

  lemma SliceIsCapped<T>(values: seq<T>, size: nat, start: int)
    requires size >= |values|
    ensures RotatingSlice(values, start, size) == RotatingSlice(values, start, |values|)
  {
    assert Min(size, |values|) == Min(|values|, |values|);
  }
}
