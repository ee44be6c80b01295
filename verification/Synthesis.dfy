/** Grounded synthesis: what an output must satisfy before it is stored, and the deterministic
    fallback that is stored unchecked when the language model's answer does not. */
module Synthesis {
  import opened Seqs
  import opened Text

  type SignalId = nat

  datatype EvidenceItem = EvidenceItem(
    signalId: SignalId, sourceName: string, title: Option<string>, body: string,
    url: Option<string>, publishedAt: Option<string>)
  datatype Citation = Citation(claimIndex: nat, signalId: SignalId, sourceName: string)
  datatype Output = Output(
    summary: string, developments: seq<string>, implication: string, note: string, citations: seq<Citation>)
  datatype Band = HIGH_CONFIDENCE | MODERATE_CONFIDENCE | LOW_CONFIDENCE | UNVERIFIED

  /** Python's Unicode tables and the three value patterns (money, date, percentage), as functions.
      `values` lists every match of every pattern. */
  datatype Script = Script(
    fold: char -> string, space: char -> bool, digit: char -> bool, values: string -> seq<string>)

  /** What the tables and patterns promise: folding respects word boundaries; a match is a contiguous
      piece of the claim holding a digit or a comma; plain prose characters are not digits. */
  ghost predicate Lawful(py: Script) {
    && KeepsBoundaries(py.fold, py.space)
    && py.space(' ') && py.space('\n')
    && (forall claim, t :: t in py.values(claim) ==> Block(t, claim) && exists i :: 0 <= i < |t| && ValueChar(py, t[i]))
    && (forall c :: Prose(c) ==> !ValueChar(py, c))
  }

  predicate ValueChar(py: Script, c: char) {
    c == ',' || py.digit(c)
  }

  predicate Prose(c: char) {
    'a' <= c <= 'z' || 'A' <= c <= 'Z' || c == ' ' || c == '.' || c == '-'
  }

  // ---------------------------------------------------------------- evidence

  /** `value if value`: absent and empty fields are skipped. */
  function Present(fields: seq<Option<string>>): seq<string> {
    if fields == [] then []
    else (if fields[0].Some? && fields[0].value != "" then [fields[0].value] else []) + Present(fields[1..])
  }

  function Fields(item: EvidenceItem): seq<Option<string>> {
    [Some(item.sourceName), item.title, Some(item.body), item.url, item.publishedAt]
  }

  function JoinLines(lines: seq<string>): string {
    if lines == [] then ""
    else if |lines| == 1 then lines[0]
    else lines[0] + "\n" + JoinLines(lines[1..])
  }

  function ItemLines(evidence: seq<EvidenceItem>): seq<string> {
    if evidence == [] then [] else [Join(Present(Fields(evidence[0])))] + ItemLines(evidence[1..])
  }

  /** `evidence_text`. */
  function EvidenceText(evidence: seq<EvidenceItem>): string {
    JoinLines(ItemLines(evidence))
  }

  /** `allowed_signal_ids` membership. */
  predicate Allowed(evidence: seq<EvidenceItem>, id: SignalId) {
    exists i :: 0 <= i < |evidence| && evidence[i].signalId == id
  }

  /** The dict comprehension `{signal_id: source_name}`: the last item of an id wins. */
  function NameOf(evidence: seq<EvidenceItem>, id: SignalId): string
    requires Allowed(evidence, id)
  {
    if evidence[|evidence| - 1].signalId == id then evidence[|evidence| - 1].sourceName
    else
      NameOf(evidence[..|evidence| - 1], id)
  }

  // ---------------------------------------------------------------- the validator

  function Claims(output: Output): seq<string> {
    [output.summary] + output.developments + [output.implication, output.note]
  }

  /** The pydantic bounds of `GlobalSynthesis` and `Citation`. */
  predicate Fits(output: Output) {
    && 1 <= |output.summary| <= 3000
    && 1 <= |output.developments| <= 10
    && 1 <= |output.implication| <= 2000
    && 1 <= |output.note| <= 1000
    && 1 <= |output.citations| <= 30
    && forall i :: 0 <= i < |output.citations| ==> 1 <= |output.citations[i].sourceName| <= 255
  }

  predicate Cited(citations: seq<Citation>, claim: int) {
    exists i :: 0 <= i < |citations| && citations[i].claimIndex == claim
  }

  predicate CitesEveryClaim(output: Output) {
    && (forall k :: 0 <= k < |Claims(output)| ==> Cited(output.citations, k))
    && (forall i :: 0 <= i < |output.citations| ==> output.citations[i].claimIndex < |Claims(output)|)
  }

  predicate CitesEvidence(output: Output, evidence: seq<EvidenceItem>) {
    forall i :: 0 <= i < |output.citations| ==>
      Allowed(evidence, output.citations[i].signalId) &&
      NameOf(evidence, output.citations[i].signalId) == output.citations[i].sourceName
  }

  predicate AllProse(s: string) {
    forall i :: 0 <= i < |s| ==> Prose(s[i])
  }

  ghost predicate Supported(py: Script, claim: string, evidence: seq<EvidenceItem>) {
    forall t :: t in py.values(claim) ==>
      Block(Normalize(t, py.fold, py.space), Normalize(EvidenceText(evidence), py.fold, py.space))
  }

  /** `validate_synthesis` does not raise. */
  ghost predicate Validates(py: Script, output: Output, evidence: seq<EvidenceItem>) {
    && CitesEveryClaim(output)
    && CitesEvidence(output, evidence)
    && forall k :: 0 <= k < |Claims(output)| ==> Supported(py, Claims(output)[k], evidence)
  }

  // ---------------------------------------------------------------- the fallback

  /** Python's `a or b` on an optional string. */
  function OrElse(a: Option<string>, b: string): string {
    if a.Some? && a.value != "" then a.value else b
  }

  const RETAINED := "Source evidence was " + "retained for review."
  const NEUTRAL := "The signal is retained as " + "tenant-neutral intelligence " + "pending further evidence."

  /** `confidence_band.lower().replace('_', ' ')` in its sentence. */
  function BandNote(band: Band): string {
    "Confidence is " + match band
      case HIGH_CONFIDENCE => "high confidence."
      case MODERATE_CONFIDENCE => "moderate confidence."
      case LOW_CONFIDENCE => "low confidence."
      case UNVERIFIED => "unverified."
  }

  function FallbackSummary(py: Script, item: EvidenceItem): string {
    OrElse(Some(Take(Collapse(item.body, py.space), 600)), OrElse(item.title, RETAINED))
  }

  /** `deterministic_fallback`, before pydantic checks its bounds. */
  function Fallback(py: Script, evidence: seq<EvidenceItem>, band: Band): Output
    requires evidence != []
  {
    var item := evidence[0];
    var summary := FallbackSummary(py, item);
    Output(summary, [OrElse(item.title, Take(summary, 240))], NEUTRAL, BandNote(band),
           seq(4, i requires 0 <= i => Citation(i, item.signalId, item.sourceName)))
  }

  /** `SynthesisService.synthesize`: the model's answer if it parses, fits and validates, else the
      fallback. The flag is `llm_synthesis_failed`. */
  ghost function Synthesize(py: Script, evidence: seq<EvidenceItem>, band: Band, answer: Option<Output>): (Output, bool)
    requires evidence != []
  {
    if answer.Some? && Fits(answer.value) && Validates(py, answer.value, evidence) then (answer.value, false)
    else (Fallback(py, evidence, band), true)
  }

  // ---------------------------------------------------------------- the fallback is grounded

  lemma {:induction false} PresentIsBlock(fields: seq<Option<string>>, k: nat)
    requires k < |fields| && fields[k].Some? && fields[k].value != ""
    ensures Block(fields[k].value, Join(Present(fields)))
  {
    var rest := Present(fields[1..]);
    if k == 0 {
      var v := fields[0].value;
      assert Present(fields) == [v] + rest;
      assert ([v] + rest)[1..] == rest;
      var tail := if rest == [] then "" else " " + Join(rest);
      assert Join(Present(fields)) == "" + v + tail;
      BlockIntro("", v, tail);
    } else {
      assert fields[1..][k - 1] == fields[k];
      PresentIsBlock(fields[1..], k - 1);
      if fields[0].Some? && fields[0].value != "" {
        var v := fields[0].value;
        assert ([v] + rest)[1..] == rest;
        if rest != [] {
          assert Join([v] + rest) == (v + " ") + Join(rest) + "";
          BlockIntro(v + " ", Join(rest), "");
          BlockTransitive(fields[k].value, Join(rest), Join([v] + rest));
        }
      } else {
        assert Present(fields) == [] + rest == rest;
      }
    }
  }

  /** Each present field of every item is literally part of the evidence text. */
  lemma {:induction false} FieldIsEvidence(evidence: seq<EvidenceItem>, i: nat, k: nat)
    requires i < |evidence| && k < 5
    requires var f := Fields(evidence[i])[k]; f.Some? && f.value != ""
    ensures Block(Fields(evidence[i])[k].value, EvidenceText(evidence))
    decreases |evidence|
  {
    var line, field := Join(Present(Fields(evidence[0]))), Fields(evidence[i])[k].value;
    var rest := ItemLines(evidence[1..]);
    assert ([line] + rest)[1..] == rest;
    if i == 0 {
      PresentIsBlock(Fields(evidence[0]), k);
      var tail := if rest == [] then "" else "\n" + JoinLines(rest);
      assert EvidenceText(evidence) == "" + line + tail;
      BlockIntro("", line, tail);
      BlockTransitive(field, line, EvidenceText(evidence));
    } else {
      assert evidence[1..][i - 1] == evidence[i];
      FieldIsEvidence(evidence[1..], i - 1, k);
      assert EvidenceText(evidence) == (line + "\n") + EvidenceText(evidence[1..]) + "";
      BlockIntro(line + "\n", EvidenceText(evidence[1..]), "");
      BlockTransitive(field, EvidenceText(evidence[1..]), EvidenceText(evidence));
    }
  }

  /** A claim that is part of a field of the first item, or of its collapsed form, is supported. */
  lemma QuotedClaimIsSupported(py: Script, claim: string, evidence: seq<EvidenceItem>, k: nat)
    requires Lawful(py) && evidence != [] && k < 5
    requires Fields(evidence[0])[k].Some? && Fields(evidence[0])[k].value != ""
    requires Block(claim, Fields(evidence[0])[k].value) ||
             Block(claim, Collapse(Fields(evidence[0])[k].value, py.space))
    ensures Supported(py, claim, evidence)
  {
    var field, whole := Fields(evidence[0])[k].value, EvidenceText(evidence);
    FieldIsEvidence(evidence, 0, k);
    NormalizeOfBlock(field, whole, py.fold, py.space);
    NormalizeIgnoresCollapse(field, py.fold, py.space);
    forall t | t in py.values(claim)
      ensures Block(Normalize(t, py.fold, py.space), Normalize(whole, py.fold, py.space))
    {
      var quoted := if Block(claim, field) then field else Collapse(field, py.space);
      BlockTransitive(t, claim, quoted);
      NormalizeOfBlock(t, quoted, py.fold, py.space);
      BlockTransitive(Normalize(t, py.fold, py.space), Normalize(field, py.fold, py.space),
                      Normalize(whole, py.fold, py.space));
    }
  }

  /** Every match puts a digit or a comma into its claim. */
  lemma MatchNeedsValueChar(py: Script, claim: string, t: string) returns (k: nat)
    requires Lawful(py) && t in py.values(claim)
    ensures k < |claim| && ValueChar(py, claim[k])
  {
    var at: nat :| BlockAt(t, claim, at);
    var i :| 0 <= i < |t| && ValueChar(py, t[i]);
    k := at + i;
    assert claim[at..at + |t|][i] == claim[k];
  }

  /** A sentence of plain prose states no value at all. */
  lemma ProseIsSupported(py: Script, claim: string, evidence: seq<EvidenceItem>)
    requires Lawful(py) && AllProse(claim)
    ensures py.values(claim) == [] && Supported(py, claim, evidence)
  {
    if |py.values(claim)| > 0 {
      var k := MatchNeedsValueChar(py, claim, py.values(claim)[0]);
      assert false;
    }
  }

  lemma ProseConcat(a: string, b: string)
    requires AllProse(a) && AllProse(b)
    ensures AllProse(a + b)
  {
  }

  lemma FixedSentencesAreProse()
    ensures AllProse(RETAINED) && AllProse(NEUTRAL)
  {
    NeutralIsProse();
    assert AllProse("Source evidence was ");
    assert AllProse("retained for review.");
    ProseConcat("Source evidence was ", "retained for review.");
  }

  lemma NeutralIsProse()
    ensures AllProse(NEUTRAL)
  {
    assert AllProse("The signal is retained as ");
    assert AllProse("tenant-neutral intelligence ");
    assert AllProse("pending further evidence.");
    ProseConcat("The signal is retained as ", "tenant-neutral intelligence ");
    ProseConcat("The signal is retained as " + "tenant-neutral intelligence ", "pending further evidence.");
  }

  lemma BandNoteIsProse(band: Band)
    ensures AllProse(BandNote(band))
  {
    assert AllProse("Confidence is ");
    match band
    case HIGH_CONFIDENCE => assert AllProse("high confidence."); ProseConcat("Confidence is ", "high confidence.");
    case MODERATE_CONFIDENCE => assert AllProse("moderate confidence.");
      ProseConcat("Confidence is ", "moderate confidence.");
    case LOW_CONFIDENCE => assert AllProse("low confidence."); ProseConcat("Confidence is ", "low confidence.");
    case UNVERIFIED => assert AllProse("unverified."); ProseConcat("Confidence is ", "unverified.");
  }

  lemma PrefixIsBlock(s: string, n: nat)
    ensures Block(Take(s, n), s)
  {
    assert BlockAt(Take(s, n), s, 0);
  }

  lemma SummaryIsSupported(py: Script, evidence: seq<EvidenceItem>, claim: string)
    requires Lawful(py) && evidence != []
    requires Block(claim, FallbackSummary(py, evidence[0]))
    ensures Supported(py, claim, evidence)
  {
    var item := evidence[0];
    var body := Collapse(item.body, py.space);
    var summary := FallbackSummary(py, item);
    if Take(body, 600) != "" {
      PrefixIsBlock(body, 600);
      BlockTransitive(claim, summary, body);
      QuotedClaimIsSupported(py, claim, evidence, 2);
    } else if item.title.Some? && item.title.value != "" {
      QuotedClaimIsSupported(py, claim, evidence, 1);
    } else {
      FixedSentencesAreProse();
      var at: nat :| BlockAt(claim, summary, at);
      assert forall i :: 0 <= i < |claim| ==> claim[i] == summary[at + i];
      ProseIsSupported(py, claim, evidence);
    }
  }

  lemma FallbackIsSupported(py: Script, evidence: seq<EvidenceItem>, band: Band, k: nat)
    requires Lawful(py) && evidence != [] && k < 4
    ensures |Claims(Fallback(py, evidence, band))| == 4
    ensures Supported(py, Claims(Fallback(py, evidence, band))[k], evidence)
  {
    var output := Fallback(py, evidence, band);
    var title := evidence[0].title;
    FixedSentencesAreProse();
    BandNoteIsProse(band);
    if k == 0 {
      assert Take(output.summary, |output.summary|) == output.summary;
      PrefixIsBlock(output.summary, |output.summary|);
      SummaryIsSupported(py, evidence, output.summary);
    } else if k == 1 {
      if title.Some? && title.value != "" {
        assert Take(title.value, |title.value|) == title.value;
        PrefixIsBlock(title.value, |title.value|);
        QuotedClaimIsSupported(py, title.value, evidence, 1);
      } else {
        PrefixIsBlock(output.summary, 240);
        SummaryIsSupported(py, evidence, Take(output.summary, 240));
      }
    } else {
      ProseIsSupported(py, Claims(output)[k], evidence);
    }
  }

  /** The stored-unchecked fallback would pass the validator exactly when the evidence does not
      rename its own first source: no later item with the same signal id and another name wins. */
  lemma FallbackValidatesIff(py: Script, evidence: seq<EvidenceItem>, band: Band)
    requires Lawful(py) && evidence != []
    ensures Allowed(evidence, evidence[0].signalId)
    ensures Validates(py, Fallback(py, evidence, band), evidence) <==>
            NameOf(evidence, evidence[0].signalId) == evidence[0].sourceName
  {
    var output := Fallback(py, evidence, band);
    FallbackIsSupported(py, evidence, band, 0);
    forall k | 0 <= k < |Claims(output)| ensures Supported(py, Claims(output)[k], evidence) {
      FallbackIsSupported(py, evidence, band, k);
    }
    assert |Claims(output)| == 4;
    forall k | 0 <= k < 4 ensures Cited(output.citations, k) {
      assert output.citations[k].claimIndex == k;
    }
    assert Allowed(evidence, output.citations[0].signalId);
    assert CitesEveryClaim(output);
  }

  lemma {:induction false} DistinctIdsKeepNames(evidence: seq<EvidenceItem>, i: nat)
    requires i < |evidence|
    requires forall j, k :: 0 <= j < k < |evidence| ==> evidence[j].signalId != evidence[k].signalId
    ensures Allowed(evidence, evidence[i].signalId) && NameOf(evidence, evidence[i].signalId) == evidence[i].sourceName
  {
    var last := |evidence| - 1;
    if i < last {
      assert evidence[..last][i] == evidence[i];
      DistinctIdsKeepNames(evidence[..last], i);
    }
  }

  /** Whatever the language model answers, the stored output passes the validator. */
  lemma StoredOutputIsGrounded(py: Script, evidence: seq<EvidenceItem>, band: Band, answer: Option<Output>)
    requires Lawful(py) && evidence != []
    requires forall j, k :: 0 <= j < k < |evidence| ==> evidence[j].signalId != evidence[k].signalId
    ensures Validates(py, Synthesize(py, evidence, band, answer).0, evidence)
  {
    FallbackValidatesIff(py, evidence, band);
    DistinctIdsKeepNames(evidence, 0);
  }

  /** Building the fallback raises (pydantic bounds) exactly on a source name outside 1..255 or, with
      a blank body, a title longer than a summary may be. */
  lemma FallbackFitsIff(py: Script, evidence: seq<EvidenceItem>, band: Band)
    requires evidence != []
    ensures Fits(Fallback(py, evidence, band)) <==>
            1 <= |evidence[0].sourceName| <= 255 &&
            (Words(evidence[0].body, py.space) != [] || evidence[0].title.None? || |evidence[0].title.value| <= 3000)
  {
    var item := evidence[0];
    var words := Words(item.body, py.space);
    if words != [] {
      JoinHeadStartsWith(words, words[0][0]);
    }
    var output := Fallback(py, evidence, band);
    assert output.citations[0].sourceName == item.sourceName;
  }
}
