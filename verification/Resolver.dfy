/** Entity resolution: find the registered names that occur in a text as whole phrases, and report
    organisation-looking mentions that no registered name explains.

    `ascii` stands for NFKD decomposition, ASCII encoding and case folding; `mentions` for the
    matches of the organisation-name expression in the text. */
module Resolver {
  import opened Seqs
  import opened Text

  predicate Other(c: char) {
    !('a' <= c <= 'z' || '0' <= c <= '9')
  }

  // ---------------------------------------------------------------- normalisation

  /** `re.sub(r"[^a-z0-9]+", " ", s)`: each maximal run of other characters becomes one space. */
  function Substitute(s: string): string {
    if s == [] then ""
    else if !Other(s[0]) then [s[0]] + Substitute(s[1..])
    else if |s| > 1 && Other(s[1]) then Substitute(s[1..])
    else " " + Substitute(s[1..])
  }

  function TrimLeft(s: string): string {
    if s != [] && s[0] == ' ' then TrimLeft(s[1..]) else s
  }

  function TrimRight(s: string): string {
    if s != [] && s[|s| - 1] == ' ' then TrimRight(s[..|s| - 1]) else s
  }

  /** `_normalize` after ASCII folding. */
  function Normalized(s: string): string {
    TrimRight(TrimLeft(Substitute(s)))
  }

  function Space(c: char): string {
    if Other(c) then " " else ""
  }

  /** What substitution leaves: the words of `s` separated by one space, with at most one space
      before and one after. */
  ghost predicate IsPadded(s: string, r: string) {
    var w := Words(s, Other);
    if s == [] then r == "" else if w == [] then r == " " else r == Space(s[0]) + (Join(w) + Space(s[|s| - 1]))
  }

  lemma {:induction false} SubstituteShape(s: string)
    ensures IsPadded(s, Substitute(s))
  {
    if |s| > 1 {
      SubstituteShape(s[1..]);
      if Other(s[0]) {
        PaddedSkip(s, Substitute(s[1..]));
      } else {
        PaddedStep(s, Substitute(s[1..]));
      }
    } else if |s| == 1 {
      assert Words(s, Other) == if Other(s[0]) then [] else [[s[0]]];
    }
  }

  lemma PaddedSkip(s: string, r: string)
    requires |s| > 1 && Other(s[0]) && IsPadded(s[1..], r)
    ensures IsPadded(s, if Other(s[1]) then r else " " + r)
  {
    assert s[1..][0] == s[1] && s[1..][|s| - 2] == s[|s| - 1];
    var w := Words(s[1..], Other);
    assert Words(s, Other) == w;
    assert "" + (Join(w) + Space(s[|s| - 1])) == Join(w) + Space(s[|s| - 1]);
  }

  lemma PaddedStep(s: string, r: string)
    requires |s| > 1 && !Other(s[0]) && IsPadded(s[1..], r)
    ensures IsPadded(s, [s[0]] + r)
  {
    var w, last := Words(s[1..], Other), Space(s[|s| - 1]);
    assert s[1..][0] == s[1] && s[1..][|s| - 2] == s[|s| - 1];
    CollapseStep(s, Other);
    if w == [] {
      AllOther(s[1..]);
    } else {
      JoinEnds(w);
      Reassociate([s[0]], Space(s[1]), Join(w), last);
    }
    hide Words, Join;
    assert Words(s, Other) != [];
  }

  lemma Reassociate(a: string, b: string, c: string, d: string)
    ensures a + (b + (c + d)) == "" + ((a + b + c) + d)
    ensures a + "" + c == a + c
  {
  }

  lemma {:induction false} AllOther(s: string)
    requires s != [] && Words(s, Other) == []
    ensures Other(s[|s| - 1])
  {
    if |s| > 1 && Other(s[0]) {
      AllOther(s[1..]);
    }
  }

  lemma TrimLeftOf(t: string)
    requires t != [] && t[0] != ' '
    ensures TrimLeft(t) == t && TrimLeft(" " + t) == t
  {
    assert (" " + t)[1..] == t;
  }

  lemma TrimRightOf(t: string)
    requires t != [] && t[|t| - 1] != ' '
    ensures TrimRight(t) == t && TrimRight(t + " ") == t
  {
    assert (t + " ")[..|t|] == t;
  }

  /** Substituting and stripping yields exactly the words, joined by single spaces. */
  lemma NormalizedIsCollapse(s: string)
    ensures Normalized(s) == Collapse(s, Other)
  {
    SubstituteShape(s);
    var w := Words(s, Other);
    if w != [] {
      JoinEnds(w);
      var j := Join(w);
      var t := j + Space(s[|s| - 1]);
      TrimLeftOf(t);
      assert "" + t == t && j + "" == j;
      TrimRightOf(j);
    } else if s != [] {
      assert TrimLeft(" ") == TrimLeft("") == "";
    }
  }

  lemma {:induction false} JoinEnds(w: seq<string>)
    requires WellFormed(w, Other) && w != []
    ensures var j := Join(w); j != [] && !Other(j[0]) && !Other(j[|j| - 1])
  {
    assert IsWord(w[0], Other);
    if |w| > 1 {
      JoinEnds(w[1..]);
    }
  }

  // ---------------------------------------------------------------- phrase matching

  predicate PhraseAt(text: string, phrase: string, i: nat) {
    && i + |phrase| <= |text| && text[i..i + |phrase|] == phrase
    && (i == 0 || text[i - 1] == ' ')
    && (i + |phrase| == |text| || text[i + |phrase|] == ' ')
  }

  /** `_contains_phrase`: the phrase, bounded by a space or an end of the text on either side. */
  predicate ContainsPhrase(text: string, phrase: string) {
    exists i :: 0 <= i <= |text| && PhraseAt(text, phrase, i)
  }

  /** On normalised strings, phrase search is exactly "the words of one are a contiguous block of
      the words of the other". */
  lemma PhraseIsWordBlock(text: string, phrase: string)
    requires Words(phrase, Other) != []
    ensures ContainsPhrase(Normalized(text), Normalized(phrase)) <==> Block(Words(phrase, Other), Words(text, Other))
  {
    var tw: seq<string>, pw: seq<string> := Words(text, Other), Words(phrase, Other);
    NormalizedIsCollapse(text);
    NormalizedIsCollapse(phrase);
    if ContainsPhrase(Join(tw), Join(pw)) {
      var i: nat :| i <= |Join(tw)| && PhraseAt(Join(tw), Join(pw), i);
      PhraseGivesBlock(tw, pw, i);
    }
    if Block(pw, tw) {
      var i: nat :| BlockAt(pw, tw, i);
      assert tw == tw[..i] + (pw + tw[i + |pw|..]);
      BlockGivesPhrase(tw[..i], pw, tw[i + |pw|..]);
    }
  }

  lemma PhraseGivesBlock(tw: seq<string>, pw: seq<string>, i: nat)
    requires WellFormed(tw, Other) && WellFormed(pw, Other) && PhraseAt(Join(tw), Join(pw), i)
    ensures Block(pw, tw)
  {
    WordsOfJoin(tw, Other);
    WordsOfJoin(pw, Other);
    SplitAtPhrase(Join(tw), Join(pw), i);
  }

  lemma SplitAtPhrase(text: string, phrase: string, i: nat)
    requires PhraseAt(text, phrase, i)
    ensures Block(Words(phrase, Other), Words(text, Other))
  {
    var before, after := text[..i], text[i + |phrase|..];
    WordsAround(before, phrase, after);
    assert text == before + (phrase + after);
    BlockIntro(Words(before, Other), Words(phrase, Other), Words(after, Other));
  }

  lemma WordsAround(before: string, phrase: string, after: string)
    requires before == [] || Other(before[|before| - 1])
    requires after == [] || Other(after[0])
    ensures Words(before + (phrase + after), Other) == Words(before, Other) + Words(phrase, Other) + Words(after, Other)
  {
    hide Words;
    WordsConcat(phrase, after, Other);
    WordsConcat(before, phrase + after, Other);
  }

  function Before(a: seq<string>): string {
    if a == [] then "" else Join(a) + " "
  }

  function After(b: seq<string>): string {
    if b == [] then "" else " " + Join(b)
  }

  lemma JoinAfter(pw: seq<string>, b: seq<string>)
    requires pw != []
    ensures Join(pw + b) == Join(pw) + After(b)
  {
    if b == [] {
      assert pw + b == pw;
    } else {
      JoinConcat(pw, b);
    }
  }

  lemma JoinBefore(a: seq<string>, q: seq<string>)
    requires q != []
    ensures Join(a + q) == Before(a) + Join(q)
  {
    if a == [] {
      assert a + q == q;
    } else {
      JoinConcat(a, q);
    }
  }

  lemma BlockGivesPhrase(a: seq<string>, pw: seq<string>, b: seq<string>)
    requires pw != []
    ensures ContainsPhrase(Join(a + (pw + b)), Join(pw))
  {
    JoinAfter(pw, b);
    JoinBefore(a, pw + b);
    PhraseIsThere(Before(a), Join(pw), After(b));
  }

  lemma PhraseIsThere(left: string, phrase: string, right: string)
    requires left == [] || left[|left| - 1] == ' '
    requires right == [] || right[0] == ' '
    ensures ContainsPhrase(left + (phrase + right), phrase)
  {
    assert PhraseAt(left + (phrase + right), phrase, |left|);
  }

  // ---------------------------------------------------------------- resolving one entity

  datatype Entity<Id> = Entity(id: Id, canonicalName: string, aliases: seq<string>)
  datatype Candidate = Candidate(name: string, alias: bool)
  datatype Resolution<Id> = Resolution(id: Id, canonicalName: string, matchedText: string, confidence: real,
                                       alias: bool)

  function Candidates<Id>(e: Entity<Id>): (r: seq<Candidate>)
    ensures |r| == 1 + |e.aliases|
  {
    [Candidate(e.canonicalName, false)] +
    seq(|e.aliases|, i requires 0 <= i < |e.aliases| => Candidate(e.aliases[i], true))
  }

  /** `key=lambda item: -len(item[0])`. */
  predicate LongerFirst(a: Candidate, b: Candidate) {
    |a.name| >= |b.name|
  }

  /** The guard of the inner loop. */
  predicate Occurs(text: string, name: string, ascii: string -> string) {
    Normalized(ascii(name)) != "" && ContainsPhrase(Normalized(ascii(text)), Normalized(ascii(name)))
  }

  function Best<Id>(text: string, e: Entity<Id>, ascii: string -> string): (r: Option<Candidate>) {
    First(StableSort(Candidates(e), LongerFirst), (c: Candidate) => Occurs(text, c.name, ascii))
  }

  /** A name occurs when it has words and they appear, in order and next to one another, among the
      words of the text. */
  ghost predicate NameIsInText(text: string, name: string, ascii: string -> string) {
    Words(ascii(name), Other) != [] && Block(Words(ascii(name), Other), Words(ascii(text), Other))
  }

  lemma OccursIff(text: string, name: string, ascii: string -> string)
    ensures Occurs(text, name, ascii) <==> NameIsInText(text, name, ascii)
  {
    NormalizedIsCollapse(ascii(name));
    if Words(ascii(name), Other) != [] {
      JoinEnds(Words(ascii(name), Other));
      PhraseIsWordBlock(ascii(text), ascii(name));
    }
  }

  /** Candidate `k` is the reported one: it occurs, no occurring name is longer, and no earlier
      occurring name is as long (the canonical name comes first, then the aliases in order). */
  ghost predicate IsReported<Id>(text: string, e: Entity<Id>, ascii: string -> string, k: nat) {
    var c := Candidates(e);
    && k < |c| && NameIsInText(text, c[k].name, ascii)
    && (forall j :: 0 <= j < |c| && NameIsInText(text, c[j].name, ascii) ==> |c[j].name| <= |c[k].name|)
    && (forall j :: 0 <= j < k && NameIsInText(text, c[j].name, ascii) ==> |c[j].name| < |c[k].name|)
  }

  lemma BestHitIsReported<Id>(text: string, e: Entity<Id>, ascii: string -> string, p: Candidate -> bool, k: nat)
    requires forall c: Candidate :: p(c) <==> NameIsInText(text, c.name, ascii)
    requires IsBestHit(Candidates(e), LongerFirst, p, k)
    ensures IsReported(text, e, ascii, k)
  {
    hide NameIsInText;
  }

  /** An entity is resolved iff one of its names is in the text, by the longest such name. */
  lemma BestIsLongestOccurringName<Id>(text: string, e: Entity<Id>, ascii: string -> string) returns (k: nat)
    ensures Best(text, e, ascii).Some? <==> exists c :: c in Candidates(e) && NameIsInText(text, c.name, ascii)
    ensures Best(text, e, ascii).Some? ==>
            IsReported(text, e, ascii, k) && Best(text, e, ascii) == Some(Candidates(e)[k])
  {
    hide Occurs, NameIsInText, IsReported;
    k := 0;
    var c: seq<Candidate> := Candidates(e);
    var p := (c: Candidate) => Occurs(text, c.name, ascii);
    forall d: Candidate ensures p(d) <==> NameIsInText(text, d.name, ascii) {
      OccursIff(text, d.name, ascii);
    }
    SortedHasSameElements(c, LongerFirst);
    if d :| d in c && p(d) {
      var i :| 0 <= i < |c| && c[i] == d;
      k := FirstOfStableSort(c, LongerFirst, p);
      BestHitIsReported(text, e, ascii, p, k);
    }
  }

  lemma ReportedIsUnique<Id>(text: string, e: Entity<Id>, ascii: string -> string, j: nat, k: nat)
    requires IsReported(text, e, ascii, j) && IsReported(text, e, ascii, k)
    ensures j == k
  {
  }

  // ---------------------------------------------------------------- the whole registry

  function Report<Id>(e: Entity<Id>, c: Candidate): Resolution<Id> {
    Resolution(e.id, e.canonicalName, c.name, if c.alias then 0.98 else 1.0, c.alias)
  }

  /** The dictionary of resolutions after the whole registry: the last resolved record with an id wins. */
  function Resolve<Id(==)>(text: string, registry: seq<Entity<Id>>, ascii: string -> string): map<Id, Resolution<Id>> {
    if registry == [] then map[]
    else
      var init, e := registry[..|registry| - 1], registry[|registry| - 1];
      var found := Resolve(text, init, ascii);
      var best := Best(text, e, ascii);
      if best.Some? then found[e.id := Report(e, best.value)] else found
  }

  function MatchedNames<Id>(text: string, registry: seq<Entity<Id>>, ascii: string -> string): set<string> {
    if registry == [] then {}
    else
      var init, e := registry[..|registry| - 1], registry[|registry| - 1];
      var best := Best(text, e, ascii);
      MatchedNames(text, init, ascii) + if best.Some? then {Normalized(ascii(best.value.name))} else {}
  }

  const IGNORED_ACRONYMS: set<string> := {"API", "CSV", "DOCX", "GMT", "HTML", "JSON", "NG", "PDF", "RSS", "UTC"}

  /** The filter of the unknown-mention comprehension. */
  predicate Unexplained<Id>(mention: string, found: map<Id, Resolution<Id>>, matched: set<string>,
                            ascii: string -> string) {
    && mention !in IGNORED_ACRONYMS
    && Normalized(ascii(mention)) !in matched
    && forall id :: id in found ==>
         !ContainsPhrase(Normalized(ascii(mention)), Normalized(ascii(found[id].matchedText)))
  }

  function Unknown<Id(==)>(text: string, registry: seq<Entity<Id>>, mentions: seq<string>,
                           ascii: string -> string, strip: string -> string): set<string> {
    var found, matched := Resolve(text, registry, ascii), MatchedNames(text, registry, ascii);
    set m | m in mentions && Unexplained(m, found, matched, ascii) :: strip(m)
  }

  /** `resolve_entities`, before the two results are sorted for display. */
  method ResolveEntities<Id(==)>(text: string, registry: seq<Entity<Id>>, mentions: seq<string>,
                                 ascii: string -> string, strip: string -> string)
    returns (resolutions: map<Id, Resolution<Id>>, unknown: set<string>)
    ensures resolutions == Resolve(text, registry, ascii)
    ensures unknown == Unknown(text, registry, mentions, ascii, strip)
  {
    resolutions := map[];
    var matched: set<string> := {};
    for i := 0 to |registry|
      invariant resolutions == Resolve(text, registry[..i], ascii)
      invariant matched == MatchedNames(text, registry[..i], ascii)
    {
      var e := registry[i];
      assert registry[..i + 1][..i] == registry[..i];
      var candidates := StableSort(Candidates(e), LongerFirst);
      ghost var p := (c: Candidate) => Occurs(text, c.name, ascii);
      var k := 0;
      while k < |candidates| && !Occurs(text, candidates[k].name, ascii)
        invariant k <= |candidates|
        invariant First(candidates, p) == First(candidates[k..], p)
      {
        assert candidates[k..][1..] == candidates[k + 1..];
        k := k + 1;
      }
      if k < |candidates| {
        resolutions := resolutions[e.id := Report(e, candidates[k])];
        matched := matched + {Normalized(ascii(candidates[k].name))};
      }
    }
    assert registry[..|registry|] == registry;
    unknown := set m | m in mentions && Unexplained(m, resolutions, matched, ascii) :: strip(m);
  }

  /** An id is resolved iff a record with that id has a name in the text, and the result names the
      entity and its best name. */
  lemma {:induction false} ResolvedIff<Id(!new)>(text: string, registry: seq<Entity<Id>>, ascii: string -> string)
    ensures var found := Resolve(text, registry, ascii);
            && (forall e, c :: e in registry && c in Candidates(e) && NameIsInText(text, c.name, ascii) ==>
                e.id in found)
            && (forall id :: id in found ==> exists e :: IsSource(text, registry, ascii, found[id], e) && e.id == id)
  {
    if registry == [] {
    } else {
      var init, last := registry[..|registry| - 1], registry[|registry| - 1];
      ResolvedIff(text, init, ascii);
      var k := BestIsLongestOccurringName(text, last, ascii);
      assert registry == init + [last];
      var before, found := Resolve(text, init, ascii), Resolve(text, registry, ascii);
      forall id | id in found ensures exists e :: IsSource(text, registry, ascii, found[id], e) && e.id == id {
        if id in before && found[id] == before[id] {
          var e :| IsSource(text, init, ascii, before[id], e) && e.id == id;
          assert IsSource(text, registry, ascii, found[id], e);
        } else {
          assert IsSource(text, registry, ascii, found[id], last);
        }
      }
    }
  }

  /** `e` is a registered entity whose best name in the text is the reported one. */
  ghost predicate IsSource<Id>(text: string, registry: seq<Entity<Id>>, ascii: string -> string, r: Resolution<Id>,
                               e: Entity<Id>) {
    e in registry && Best(text, e, ascii).Some? && r == Report(e, Best(text, e, ascii).value)
  }

  lemma ReportedHasWords<Id(!new)>(text: string, registry: seq<Entity<Id>>, ascii: string -> string, id: Id)
    requires id in Resolve(text, registry, ascii)
    ensures Normalized(ascii(Resolve(text, registry, ascii)[id].matchedText)) != ""
  {
    ResolvedIff(text, registry, ascii);
    var e :| IsSource(text, registry, ascii, Resolve(text, registry, ascii)[id], e) && e.id == id;
  }

  ghost predicate IsNameOf<Id>(n: string, found: map<Id, Resolution<Id>>, ascii: string -> string, id: Id) {
    id in found && n == Normalized(ascii(found[id].matchedText))
  }

  ghost predicate DistinctIds<Id>(registry: seq<Entity<Id>>) {
    forall i, j :: 0 <= i < j < |registry| ==> registry[i].id != registry[j].id
  }

  /** With distinct ids, every matched name is the name of a reported resolution. */
  lemma {:induction false} MatchedAreReported<Id(!new)>(text: string, registry: seq<Entity<Id>>,
                                                        ascii: string -> string, n: string)
    returns (id: Id)
    requires DistinctIds(registry) && n in MatchedNames(text, registry, ascii)
    ensures IsNameOf(n, Resolve(text, registry, ascii), ascii, id)
  {
    var init, last := registry[..|registry| - 1], registry[|registry| - 1];
    if n in MatchedNames(text, init, ascii) {
      id := MatchedAreReported(text, init, ascii, n);
      ResolvedIff(text, init, ascii);
      assert forall e :: e in init ==> e.id != last.id;
      assert id != last.id;
    } else {
      id := last.id;
    }
  }

  /** No mention kept as unknown is an ignored acronym or contains a reported name; with distinct
      ids those two tests are also sufficient for keeping it. */
  lemma UnexplainedIff<Id(!new)>(text: string, registry: seq<Entity<Id>>, mention: string, ascii: string -> string)
    ensures Unexplained(mention, Resolve(text, registry, ascii), MatchedNames(text, registry, ascii), ascii) ==>
            IsNew(mention, Resolve(text, registry, ascii), ascii)
    ensures DistinctIds(registry) && IsNew(mention, Resolve(text, registry, ascii), ascii) ==>
            Unexplained(mention, Resolve(text, registry, ascii), MatchedNames(text, registry, ascii), ascii)
  {
    var found, matched := Resolve(text, registry, ascii), MatchedNames(text, registry, ascii);
    forall id | id in found
      ensures ContainsPhrase(Normalized(ascii(mention)), Normalized(ascii(found[id].matchedText))) <==>
              NameIsInText(mention, found[id].matchedText, ascii)
    {
      ReportedHasWords(text, registry, ascii, id);
      OccursIff(mention, found[id].matchedText, ascii);
    }
    if DistinctIds(registry) && Normalized(ascii(mention)) in matched {
      var id := MatchedAreReported(text, registry, ascii, Normalized(ascii(mention)));
      assert PhraseAt(Normalized(ascii(mention)), Normalized(ascii(found[id].matchedText)), 0);
    }
  }

  ghost predicate IsNew<Id>(mention: string, found: map<Id, Resolution<Id>>, ascii: string -> string) {
    mention !in IGNORED_ACRONYMS && forall id :: id in found ==> !NameIsInText(mention, found[id].matchedText, ascii)
  }

  // ---------------------------------------------------------------- in plain terms

  predicate LetterOrDigit(c: char) {
    'a' <= c <= 'z' || '0' <= c <= '9'
  }

  function Flat(ws: seq<string>): string {
    if ws == [] then "" else ws[0] + Flat(ws[1..])
  }

  lemma {:induction false} LettersOfWords(s: string)
    ensures Filter(s, LetterOrDigit) == Flat(Words(s, Other))
  {
    if s == [] {
    } else {
      LettersOfWords(s[1..]);
      var w := Words(s[1..], Other);
      if !Other(s[0]) && |s| > 1 && !Other(s[1]) {
        assert ([[s[0]] + w[0]] + w[1..])[1..] == w[1..];
        assert [s[0]] + (w[0] + Flat(w[1..])) == ([s[0]] + w[0]) + Flat(w[1..]);
      } else if !Other(s[0]) {
        assert ([[s[0]]] + w)[1..] == w;
      }
    }
  }

  /** Normalising keeps the letters and digits, in order and in the same words, and separates the words by
      single spaces. */
  lemma NormalizedInPlainTerms(s: string)
    ensures var n := Normalized(s);
            && (forall i :: 0 <= i < |n| ==> LetterOrDigit(n[i]) || (n[i] == ' ' && 0 < i < |n| - 1 && n[i + 1] != ' '))
            && Filter(n, LetterOrDigit) == Filter(s, LetterOrDigit) && Words(n, Other) == Words(s, Other)
  {
    NormalizedIsCollapse(s);
    CollapsedIsTidy(s, Other);
    LettersOfWords(s);
    LettersOfWords(Normalized(s));
  }

  /** The canonical name, then the aliases in order. */
  function Name<Id>(e: Entity<Id>, k: nat): string
    requires k <= |e.aliases|
  {
    if k == 0 then e.canonicalName else e.aliases[k - 1]
  }

  /** The longest name in the text, the first of them among equally long ones. */
  ghost predicate IsLongestName<Id>(text: string, e: Entity<Id>, ascii: string -> string, k: nat) {
    && k <= |e.aliases| && NameIsInText(text, Name(e, k), ascii)
    && forall j :: 0 <= j <= |e.aliases| && NameIsInText(text, Name(e, j), ascii) ==>
         |Name(e, j)| <= |Name(e, k)| && (j < k ==> |Name(e, j)| < |Name(e, k)|)
  }

  ghost predicate HasNameIn<Id>(text: string, e: Entity<Id>, ascii: string -> string) {
    exists k :: 0 <= k <= |e.aliases| && NameIsInText(text, Name(e, k), ascii)
  }

  /** What is reported for a record: certainty 1 for the canonical name and 0.98 for an alias. */
  ghost predicate IsReportOf<Id>(text: string, e: Entity<Id>, ascii: string -> string, r: Resolution<Id>) {
    exists k :: 0 <= k <= |e.aliases| && IsLongestName(text, e, ascii, k) &&
                r == Resolution(e.id, e.canonicalName, Name(e, k), if k == 0 then 1.0 else 0.98, k != 0)
  }

  lemma CandidateNames<Id>(e: Entity<Id>, k: nat)
    requires k <= |e.aliases|
    ensures Candidates(e)[k] == Candidate(Name(e, k), k != 0)
  {
  }

  lemma ReportedIsLongest<Id>(text: string, e: Entity<Id>, ascii: string -> string, k: nat)
    requires IsReported(text, e, ascii, k)
    ensures IsReportOf(text, e, ascii, Report(e, Candidates(e)[k]))
  {
    forall j: nat | j <= |e.aliases| ensures Candidates(e)[j] == Candidate(Name(e, j), j != 0) {
      CandidateNames(e, j);
    }
    hide NameIsInText, Name;
    assert IsLongestName(text, e, ascii, k);
  }

  lemma BestInPlainTerms<Id(!new)>(text: string, e: Entity<Id>, ascii: string -> string)
    ensures var best := Best(text, e, ascii);
            if HasNameIn(text, e, ascii) then best.Some? && IsReportOf(text, e, ascii, Report(e, best.value))
            else best.None?
  {
    hide NameIsInText, Best, IsReported, IsReportOf, Report;
    var k := BestIsLongestOccurringName(text, e, ascii);
    if Best(text, e, ascii).Some? {
      ReportedIsLongest(text, e, ascii, k);
      assert HasNameIn(text, e, ascii) by { ReportHasName(text, e, ascii, k); }
    }
    if j :| 0 <= j <= |e.aliases| && NameIsInText(text, Name(e, j), ascii) {
      CandidateNames(e, j);
      assert Candidates(e)[j] in Candidates(e);
    }
  }

  lemma ReportHasName<Id>(text: string, e: Entity<Id>, ascii: string -> string, k: nat)
    requires IsReported(text, e, ascii, k)
    ensures HasNameIn(text, e, ascii)
  {
    hide NameIsInText;
    CandidateNames(e, k);
  }

  /** Record `i` is the last one with this id that has a name in the text. */
  ghost predicate IsLastSource<Id>(text: string, registry: seq<Entity<Id>>, ascii: string -> string, id: Id, i: nat) {
    && i < |registry| && registry[i].id == id && HasNameIn(text, registry[i], ascii)
    && forall j :: i < j < |registry| && registry[j].id == id ==> !HasNameIn(text, registry[j], ascii)
  }

  /** The reported resolution is that of the last record with the id that has a name in the text. */
  ghost predicate IsResolution<Id>(text: string, registry: seq<Entity<Id>>, ascii: string -> string, id: Id,
                                   r: Resolution<Id>) {
    exists i: nat :: IsLastSource(text, registry, ascii, id, i) && IsReportOf(text, registry[i], ascii, r)
  }

  lemma ResolutionStays<Id>(text: string, init: seq<Entity<Id>>, last: Entity<Id>, ascii: string -> string, id: Id,
                            r: Resolution<Id>)
    requires IsResolution(text, init, ascii, id, r) && !(last.id == id && HasNameIn(text, last, ascii))
    ensures IsResolution(text, init + [last], ascii, id, r)
  {
    hide HasNameIn, IsReportOf;
    var i: nat :| IsLastSource(text, init, ascii, id, i) && IsReportOf(text, init[i], ascii, r);
    assert IsLastSource(text, init + [last], ascii, id, i);
  }

  lemma ResolutionIsNew<Id>(text: string, init: seq<Entity<Id>>, last: Entity<Id>, ascii: string -> string,
                            r: Resolution<Id>)
    requires HasNameIn(text, last, ascii) && IsReportOf(text, last, ascii, r)
    ensures IsResolution(text, init + [last], ascii, last.id, r)
  {
    hide HasNameIn, IsReportOf;
    assert IsLastSource(text, init + [last], ascii, last.id, |init|);
  }

  /** The resolved ids are those of records with a name in the text; the last such record is reported. */
  lemma {:induction false} ResolutionInPlainTerms<Id(!new)>(text: string, registry: seq<Entity<Id>>,
                                                           ascii: string -> string, id: Id)
    ensures var found := Resolve(text, registry, ascii);
            if exists e :: e in registry && e.id == id && HasNameIn(text, e, ascii)
            then id in found && IsResolution(text, registry, ascii, id, found[id])
            else id !in found
  {
    hide Best, HasNameIn, IsReportOf, Report, IsResolution;
    if registry == [] {
    } else {
      var init, last := registry[..|registry| - 1], registry[|registry| - 1];
      var found := Resolve(text, init, ascii);
      ResolutionInPlainTerms(text, init, ascii, id);
      BestInPlainTerms(text, last, ascii);
      assert registry == init + [last];
      if last.id == id && HasNameIn(text, last, ascii) {
        ResolutionIsNew(text, init, last, ascii, Report(last, Best(text, last, ascii).value));
      } else if id in found {
        ResolutionStays(text, init, last, ascii, id, found[id]);
      }
    }
  }

  /** Neither a listed acronym nor around a reported name. */
  ghost predicate IsUnknown<Id>(m: string, found: map<Id, Resolution<Id>>, ascii: string -> string) {
    && m !in {"API", "CSV", "DOCX", "GMT", "HTML", "JSON", "NG", "PDF", "RSS", "UTC"}
    && forall id :: id in found ==> !NameIsInText(m, found[id].matchedText, ascii)
  }

  /** With distinct ids, the unknown mentions are the stripped forms of these. */
  lemma UnknownInPlainTerms<Id(!new)>(text: string, registry: seq<Entity<Id>>, mentions: seq<string>,
                                      ascii: string -> string, strip: string -> string, w: string)
    requires DistinctIds(registry)
    ensures w in Unknown(text, registry, mentions, ascii, strip) <==>
            exists m :: m in mentions && strip(m) == w && IsUnknown(m, Resolve(text, registry, ascii), ascii)
  {
    var found, matched := Resolve(text, registry, ascii), MatchedNames(text, registry, ascii);
    forall m ensures Unexplained(m, found, matched, ascii) <==> IsUnknown(m, found, ascii) {
      UnexplainedIff(text, registry, m, ascii);
    }
    hide Unexplained, IsUnknown, Resolve, MatchedNames, NameIsInText;
    assert w in Unknown(text, registry, mentions, ascii, strip) <==>
           exists m :: m in mentions && strip(m) == w && Unexplained(m, found, matched, ascii);
  }
}
