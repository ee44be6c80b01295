/** What a synthesis run stores and what a decision run writes, from the rows themselves. */
module SynthesisOutcomes {
  import opened Seqs
  import opened Text
  import opened Signals
  import opened Provenance
  import S = Synthesis

  // ---------------------------------------------------------------- evidence

  function WordsOfFields(fields: seq<Option<string>>, sep: char -> bool): seq<string> {
    if fields == [] then []
    else (if fields[0].Some? then Words(fields[0].value, sep) else []) + WordsOfFields(fields[1..], sep)
  }

  /** The words of the source name, title, body, link and date of every row, in that order. */
  function WordsOfRows(signals: map<SignalId, Signal>, rows: seq<SignalId>, sep: char -> bool): seq<string>
    requires forall x :: x in rows ==> x in signals
  {
    if rows == [] then []
    else
      var x := signals[rows[0]];
      WordsOfFields([Some(x.sourceName), x.title, Some(x.body), x.url, x.publishedAt], sep) +
      WordsOfRows(signals, rows[1..], sep)
  }

  lemma WordsOfJoinCons(v: string, rest: seq<string>, sep: char -> bool)
    requires sep(' ')
    ensures Words(Join([v] + rest), sep) == Words(v, sep) + Words(Join(rest), sep)
  {
    assert ([v] + rest)[1..] == rest;
    if rest != [] {
      assert Join([v] + rest) == v + (" " + Join(rest));
      WordsConcat(v, " " + Join(rest), sep);
      WordsOfCons(' ', Join(rest), sep);
      hide Words, Join;
    }
  }

  lemma {:induction false} WordsOfPresent(fields: seq<Option<string>>, sep: char -> bool)
    requires sep(' ')
    ensures Words(Join(S.Present(fields)), sep) == WordsOfFields(fields, sep)
  {
    if fields == [] {
    } else {
      WordsOfPresent(fields[1..], sep);
      var rest := S.Present(fields[1..]);
      assert Words("", sep) == [];
      if fields[0].Some? && fields[0].value != "" {
        assert S.Present(fields) == [fields[0].value] + rest;
        WordsOfJoinCons(fields[0].value, rest, sep);
      } else {
        assert S.Present(fields) == [] + rest == rest;
      }
      hide Words, Join;
    }
  }

  /** The evidence text says what the rows say and nothing else. */
  lemma {:induction false} EvidenceWords(signals: map<SignalId, Signal>, rows: seq<SignalId>, sep: char -> bool)
    requires (forall x :: x in rows ==> x in signals) && sep(' ') && sep('\n')
    ensures Words(S.EvidenceText(Items(signals, rows)), sep) == WordsOfRows(signals, rows, sep)
  {
    if rows == [] {
    } else {
      EvidenceWords(signals, rows[1..], sep);
      var items, x := Items(signals, rows), signals[rows[0]];
      var fields := [Some(x.sourceName), x.title, Some(x.body), x.url, x.publishedAt];
      WordsOfPresent(fields, sep);
      var line, rest := Join(S.Present(fields)), S.ItemLines(items[1..]);
      assert items[1..] == Items(signals, rows[1..]);
      assert S.ItemLines(items) == [line] + rest && ([line] + rest)[1..] == rest;
      if rest != [] {
        assert S.EvidenceText(items) == line + ("\n" + S.JoinLines(rest));
        WordsConcat(line, "\n" + S.JoinLines(rest), sep);
        WordsOfCons('\n', S.JoinLines(rest), sep);
      } else {
        assert rows[1..] == [];
      }
    }
  }

  // ---------------------------------------------------------------- the model's answer

  predicate WithinBounds(o: S.Output) {
    && 1 <= |o.summary| <= 3000 && 1 <= |o.developments| <= 10 && 1 <= |o.implication| <= 2000 && 1 <= |o.note| <= 1000
    && 1 <= |o.citations| <= 30 && forall c :: c in o.citations ==> 1 <= |c.sourceName| <= 255
  }

  /** Each of the N + 3 claims is cited and nothing else, always a context row under its source's name. */
  predicate CitesRows(o: S.Output, signals: map<SignalId, Signal>, rows: seq<SignalId>) {
    && (forall k :: 0 <= k < |o.developments| + 3 ==> ClaimIsCited(o, k))
    && forall c :: c in o.citations ==>
         && c.claimIndex < |o.developments| + 3
         && c.signalId in rows && c.signalId in signals && c.sourceName == signals[c.signalId].sourceName
  }

  predicate ClaimIsCited(o: S.Output, k: int) {
    exists c :: c in o.citations && c.claimIndex == k
  }

  /** Every amount, date and percentage the claims state is in the evidence, up to case and spacing. */
  ghost predicate StatesOnlyEvidence(py: S.Script, o: S.Output, evidence: string) {
    forall claim, v :: (claim == o.summary || claim in o.developments || claim == o.implication || claim == o.note) &&
                       v in py.values(claim) ==>
                         Block(Normalize(v, py.fold, py.space), Normalize(evidence, py.fold, py.space))
  }

  /** An answer that may be stored. */
  ghost predicate Acceptable(py: S.Script, signals: map<SignalId, Signal>, rows: seq<SignalId>,
                             answer: Option<S.Output>)
    requires forall x :: x in rows ==> x in signals
  {
    answer.Some? && WithinBounds(answer.value) && CitesRows(answer.value, signals, rows) &&
    StatesOnlyEvidence(py, answer.value, S.EvidenceText(Items(signals, rows)))
  }

  lemma BoundsAreFits(o: S.Output)
    ensures WithinBounds(o) <==> S.Fits(o)
  {
    assert forall i :: 0 <= i < |o.citations| ==> o.citations[i] in o.citations;
  }

  lemma RowNames(signals: map<SignalId, Signal>, rows: seq<SignalId>, id: SignalId)
    requires Unique(rows) && forall x :: x in rows ==> x in signals
    ensures S.Allowed(Items(signals, rows), id) <==> id in rows
    ensures id in rows ==> S.NameOf(Items(signals, rows), id) == signals[id].sourceName
  {
    var items := Items(signals, rows);
    if id in rows {
      var i :| 0 <= i < |rows| && rows[i] == id;
      assert items[i].signalId == id;
      S.DistinctIdsKeepNames(items, i);
    }
    if S.Allowed(items, id) {
      var i :| 0 <= i < |items| && items[i].signalId == id;
      assert rows[i] == id;
    }
  }

  lemma ClaimIsCitedIff(o: S.Output, k: int)
    ensures ClaimIsCited(o, k) <==> S.Cited(o.citations, k)
  {
    if S.Cited(o.citations, k) {
      var i :| 0 <= i < |o.citations| && o.citations[i].claimIndex == k;
      assert o.citations[i] in o.citations;
    }
  }

  lemma CitationsAreRows(o: S.Output, signals: map<SignalId, Signal>, rows: seq<SignalId>)
    requires Unique(rows) && forall x :: x in rows ==> x in signals
    ensures CitesRows(o, signals, rows) <==> S.CitesEveryClaim(o) && S.CitesEvidence(o, Items(signals, rows))
  {
    var items := Items(signals, rows);
    assert |S.Claims(o)| == |o.developments| + 3;
    forall c | c in o.citations
      ensures S.Allowed(items, c.signalId) <==> c.signalId in rows
      ensures c.signalId in rows ==> S.NameOf(items, c.signalId) == signals[c.signalId].sourceName
    {
      RowNames(signals, rows, c.signalId);
    }
    forall k ensures ClaimIsCited(o, k) <==> S.Cited(o.citations, k) {
      ClaimIsCitedIff(o, k);
    }
    hide S.NameOf, S.Allowed, S.Claims, S.Cited, Unique, ClaimIsCited;
    if S.CitesEveryClaim(o) && S.CitesEvidence(o, items) {
      forall c | c in o.citations
        ensures c.claimIndex < |o.developments| + 3 && c.signalId in rows && c.signalId in signals
        ensures c.sourceName == signals[c.signalId].sourceName
      {
        var i :| 0 <= i < |o.citations| && o.citations[i] == c;
      }
    }
    if CitesRows(o, signals, rows) {
      forall i | 0 <= i < |o.citations|
        ensures o.citations[i].claimIndex < |S.Claims(o)| && S.Allowed(items, o.citations[i].signalId)
        ensures S.NameOf(items, o.citations[i].signalId) == o.citations[i].sourceName
      {
        assert o.citations[i] in o.citations;
      }
    }
  }

  lemma ValuesAreEvidence(py: S.Script, o: S.Output, evidence: seq<S.EvidenceItem>)
    ensures StatesOnlyEvidence(py, o, S.EvidenceText(evidence)) <==>
            forall k :: 0 <= k < |S.Claims(o)| ==> S.Supported(py, S.Claims(o)[k], evidence)
  {
    var claims := S.Claims(o);
    hide Normalize, S.EvidenceText, Block;
    assert claims[0] == o.summary && claims[|claims| - 2] == o.implication && claims[|claims| - 1] == o.note;
    assert forall i :: 0 <= i < |o.developments| ==> claims[i + 1] == o.developments[i];
    assert forall claim :: claim in claims <==>
             claim == o.summary || claim in o.developments || claim == o.implication || claim == o.note;
    assert (forall k :: 0 <= k < |claims| ==> S.Supported(py, claims[k], evidence)) <==>
           forall claim :: claim in claims ==> S.Supported(py, claim, evidence);
  }

  /** The parsing bounds and the validator together, in plain terms. */
  lemma AcceptableIff(py: S.Script, signals: map<SignalId, Signal>, rows: seq<SignalId>, o: S.Output)
    requires Unique(rows) && forall x :: x in rows ==> x in signals
    ensures Acceptable(py, signals, rows, Some(o)) <==> S.Fits(o) && S.Validates(py, o, Items(signals, rows))
  {
    BoundsAreFits(o);
    CitationsAreRows(o, signals, rows);
    ValuesAreEvidence(py, o, Items(signals, rows));
    hide S.Fits, S.CitesEveryClaim, S.CitesEvidence, S.Supported, WithinBounds, CitesRows, StatesOnlyEvidence, Items;
  }

  // ---------------------------------------------------------------- the fallback

  /** The first `n` characters. */
  predicate IsCut(part: string, whole: string, n: nat) {
    part <= whole && |part| <= n && (part == whole || |part| == n)
  }

  /** The answer made of signal `id` itself: its body, else its title, else a fixed sentence. */
  predicate IsFallback(py: S.Script, x: Signal, id: SignalId, band: S.Band, o: S.Output) {
    var body, titled := Collapse(x.body, py.space), x.title.Some? && x.title.value != "";
    && (body != "" ==> IsCut(o.summary, body, 600))
    && (body == "" && titled ==> o.summary == x.title.value)
    && (body == "" && !titled ==> o.summary == "Source evidence was " + "retained for review.")
    && |o.developments| == 1
    && (titled ==> o.developments[0] == x.title.value)
    && (!titled ==> IsCut(o.developments[0], o.summary, 240))
    && o.implication == "The signal is retained as " + "tenant-neutral intelligence " + "pending further evidence."
    && o.note == (match band
                  case HIGH_CONFIDENCE => "Confidence is " + "high confidence."
                  case MODERATE_CONFIDENCE => "Confidence is " + "moderate confidence."
                  case LOW_CONFIDENCE => "Confidence is " + "low confidence."
                  case UNVERIFIED => "Confidence is " + "unverified.")
    && |o.citations| == 4 && forall k :: 0 <= k < 4 ==> o.citations[k] == S.Citation(k, id, x.sourceName)
  }

  lemma FallbackIsTheSignal(py: S.Script, signals: map<SignalId, Signal>, rows: seq<SignalId>, band: S.Band)
    requires rows != [] && forall x :: x in rows ==> x in signals
    ensures IsFallback(py, signals[rows[0]], rows[0], band, S.Fallback(py, Items(signals, rows), band))
  {
    hide Collapse;
  }

  // ---------------------------------------------------------------- what is stored

  /** A run over a signal with a usable context stores the model's answer, unflagged, exactly when it is
      acceptable on the context rows; otherwise the fallback, flagged, if that is within its bounds, and
      nothing if not. No other table row changes. */
  lemma SynthesisOutcome(py: S.Script, s: State, id: SignalId, tenant: Option<Tenant>, historical: seq<SignalId>,
                         band: S.Band, answer: Option<S.Output>)
    ensures var t, context := RunSynthesis(py, s, id, tenant, historical, band, answer),
                              AssembleContext(s.signals, id, tenant, historical);
            if context.None? then t == s
            else
              && (forall x :: x in context.value ==> x in s.signals) && id in s.signals
              && if Acceptable(py, s.signals, context.value, answer)
                 then t == s.(outputs := s.outputs[id := OutputRow(tenant, answer.value, false)])
                 else exists o :: IsFallback(py, s.signals[id], id, band, o) &&
                        t == if WithinBounds(o) then s.(outputs := s.outputs[id := OutputRow(tenant, o, true)]) else s
  {
    ContextIsReadable(s.signals, id, tenant, historical);
    var context := AssembleContext(s.signals, id, tenant, historical);
    if context.Some? {
      var rows := context.value;
      var items := Items(s.signals, rows);
      if answer.Some? {
        AcceptableIff(py, s.signals, rows, answer.value);
      }
      FallbackIsTheSignal(py, s.signals, rows, band);
      BoundsAreFits(S.Fallback(py, items, band));
      hide AssembleContext, Items, IsFallback, WithinBounds, S.Fits, S.Validates, S.Fallback, CitesRows,
           StatesOnlyEvidence;
    }
  }

  // ---------------------------------------------------------------- context and briefs

  predicate MayRead(signals: map<SignalId, Signal>, id: SignalId, tenant: Option<Tenant>) {
    id in signals && (signals[id].tenant == None || signals[id].tenant == tenant)
  }

  /** The candidates are the first seven distinct ids of the signal, its corroborating ones and three
      historical ones; the rows are those the tenant may read, the signal first, the rest newest first. */
  lemma ContextInPlainTerms(signals: map<SignalId, Signal>, id: SignalId, tenant: Option<Tenant>,
                            historical: seq<SignalId>)
    requires id in signals
    ensures var ids, context := EvidenceIds(signals[id], id, historical),
            AssembleContext(signals, id, tenant, historical);
            && FirstDistinct([id] + signals[id].corroborating + historical[..Min(3, |historical|)], ids, 7)
            && (context.Some? <==> signals[id].tenant == tenant && signals[id].scored)
            && (context.Some? ==>
                  var rows := context.value;
                  && rows != [] && rows[0] == id && Unique(rows)
                  && (forall x :: x in rows <==> x in ids && MayRead(signals, x, tenant))
                  && forall i, j :: 0 < i < j < |rows| ==>
                       rows[i] in signals && rows[j] in signals &&
                       signals[rows[i]].createdAt >= signals[rows[j]].createdAt)
  {
    var all := [id] + signals[id].corroborating + historical[..Min(3, |historical|)];
    assert Take(historical, 3) == historical[..Min(3, |historical|)];
    FirstOfDistinct(all, 7);
    ContextIsReadable(signals, id, tenant, historical);
    if AssembleContext(signals, id, tenant, historical).Some? {
      RowsAreNewestFirst(signals, id, tenant, EvidenceIds(signals[id], id, historical));
      assert forall x :: x in AssembleContext(signals, id, tenant, historical).value ==> x in signals;
    }
    hide FirstDistinct, StableSort, Unique, EvidenceIds, EvidenceRows, RowOrder;
  }

  lemma RowsAreNewestFirst(signals: map<SignalId, Signal>, id: SignalId, tenant: Option<Tenant>, ids: seq<SignalId>)
    requires Unique(ids)
    ensures var rows := EvidenceRows(signals, id, tenant, ids);
            forall i, j :: 0 < i < j < |rows| && rows[0] == id && Unique(rows) ==>
              CreatedAt(signals, rows[i]) >= CreatedAt(signals, rows[j])
  {
    var le := (a: SignalId, b: SignalId) => RowOrder(signals, id, a, b);
    var kept := Filter(ids, (x: SignalId) => Readable(signals, x, tenant));
    StableSortSorts(kept, le);
    var rows := EvidenceRows(signals, id, tenant, ids);
    var sorted := StableSort(kept, le);
    assert forall i, j :: 0 <= i < j < |sorted| ==> RowOrder(signals, id, sorted[i], sorted[j]) by {
      hide StableSort, RowOrder;
    }
    NewestFirst(signals, id, sorted, 7);
    hide StableSort, RowOrder, Filter, Readable, CreatedAt, Unique;
  }

  lemma NewestFirst(signals: map<SignalId, Signal>, id: SignalId, sorted: seq<SignalId>, n: nat)
    requires forall i, j :: 0 <= i < j < |sorted| ==> RowOrder(signals, id, sorted[i], sorted[j])
    ensures var rows := Take(sorted, n);
            forall i, j :: 0 < i < j < |rows| && rows[0] == id && Unique(rows) ==>
              CreatedAt(signals, rows[i]) >= CreatedAt(signals, rows[j])
  {
    hide CreatedAt;
  }

  /** The tenant may see the output and its signal. */
  predicate MayBrief(s: State, id: SignalId, tenant: Tenant) {
    id in s.outputs && (s.outputs[id].tenant == None || s.outputs[id].tenant == Some(tenant)) &&
    MayRead(s.signals, id, Some(tenant))
  }

  predicate Written(key: BriefKey, id: SignalId, tenant: Tenant, contextVersion: nat, lenses: seq<(nat, nat)>) {
    && key.tenant == tenant && key.signal == id && key.contextVersion == contextVersion
    && ((key.user == None && key.lens == None) ||
        exists i :: 0 <= i < |lenses| && key.user == Some(lenses[i].0) && key.lens == Some(lenses[i].1))
  }

  /** Exactly these briefs were written, all with evidence `ids`. */
  ghost predicate OnlyWrites(s: State, t: State, id: SignalId, tenant: Tenant, contextVersion: nat,
                             lenses: seq<(nat, nat)>, ids: seq<SignalId>) {
    && t == s.(briefs := t.briefs)
    && forall key :: if Written(key, id, tenant, contextVersion, lenses) then key in t.briefs && t.briefs[key] == ids
                     else (key in t.briefs <==> key in s.briefs) && (key in s.briefs ==> t.briefs[key] == s.briefs[key])
  }

  lemma {:induction false} UserBriefsWritten(s: State, company: State, id: SignalId, tenant: Tenant,
                                             contextVersion: nat,
                                             lenses: seq<(nat, nat)>)
    requires id in s.outputs
    requires company == s.(briefs := s.briefs[BriefKey(tenant, id, contextVersion, None, None) := BriefEvidence(s, id)])
    ensures OnlyWrites(s, BriefUsers(company, id, tenant, contextVersion, lenses), id, tenant, contextVersion, lenses,
                       BriefEvidence(s, id))
  {
    if lenses == [] {
    } else {
      var fewer, last := lenses[..|lenses| - 1], lenses[|lenses| - 1];
      UserBriefsWritten(s, company, id, tenant, contextVersion, fewer);
      EvidenceIsFramed(s, company, id);
      var t := BriefUsers(company, id, tenant, contextVersion, fewer);
      assert lenses == fewer + [last];
      OneMoreBrief(s, t, id, tenant, contextVersion, fewer, last, BriefEvidence(s, id));
      hide BriefEvidence, OnlyWrites;
    }
  }

  lemma OneMoreBrief(s: State, t: State, id: SignalId, tenant: Tenant, contextVersion: nat, fewer: seq<(nat, nat)>,
                     last: (nat, nat), ids: seq<SignalId>)
    requires OnlyWrites(s, t, id, tenant, contextVersion, fewer, ids)
    ensures OnlyWrites(s,
                       t.(briefs := t.briefs[BriefKey(tenant, id, contextVersion, Some(last.0), Some(last.1)) := ids]),
                       id, tenant, contextVersion, fewer + [last], ids)
  {
    forall key ensures Written(key, id, tenant, contextVersion, fewer + [last]) <==>
                         Written(key, id, tenant, contextVersion, fewer) ||
                         key == BriefKey(tenant, id, contextVersion, Some(last.0), Some(last.1))
    {
      OneMoreLens(key, id, tenant, contextVersion, fewer, last);
    }
    hide Written;
  }

  lemma EvidenceIsFramed(s: State, t: State, id: SignalId)
    requires id in s.outputs && t.outputs == s.outputs
    ensures BriefEvidence(t, id) == BriefEvidence(s, id)
  {
  }

  lemma OneMoreLens(key: BriefKey, id: SignalId, tenant: Tenant, contextVersion: nat, fewer: seq<(nat, nat)>,
                    last: (nat, nat))
    ensures Written(key, id, tenant, contextVersion, fewer + [last]) <==>
            Written(key, id, tenant, contextVersion, fewer) ||
            key == BriefKey(tenant, id, contextVersion, Some(last.0), Some(last.1))
  {
    var lenses := fewer + [last];
    assert lenses[|fewer|] == last;
    assert forall i :: 0 <= i < |fewer| ==> lenses[i] == fewer[i];
  }

  /** A decision run writes the company brief and one brief for each lens, all with the signal's id and the
      output's citations, each once in their order; without a visible output it writes nothing, and it
      changes nothing else. */
  lemma BriefsWritten(s: State, id: SignalId, tenant: Tenant, contextVersion: nat, lenses: seq<(nat, nat)>)
    ensures var t := BriefTenant(s, id, tenant, contextVersion, lenses);
            if !MayBrief(s, id, tenant) then t == s
            else
              var cited := CitedIds(s.outputs[id].output.citations);
              exists ids ::
                && FirstDistinct([id] + cited, ids, 1 + |cited|)
                && OnlyWrites(s, t, id, tenant, contextVersion, lenses, ids)
  {
    if MayBrief(s, id, tenant) {
      var cited := CitedIds(s.outputs[id].output.citations);
      var company :=
        s.(briefs := s.briefs[BriefKey(tenant, id, contextVersion, None, None) := BriefEvidence(s, id)]);
      DistinctIsFirst([id] + cited);
      UserBriefsWritten(s, company, id, tenant, contextVersion, lenses);
      assert FirstDistinct([id] + cited, BriefEvidence(s, id), 1 + |cited|);
      assert PackageFor(s, id, tenant);
      hide FirstDistinct, OnlyWrites, BriefUsers, BriefEvidence;
      assert OnlyWrites(s, BriefTenant(s, id, tenant, contextVersion, lenses), id, tenant, contextVersion, lenses,
                        BriefEvidence(s, id));
    }
  }

  /** No run shows a tenant, in any of its briefs, a signal of another tenant. */
  lemma NoTenantSeesAnothers(py: S.Script, s: State, steps: seq<Step>, key: BriefKey, x: SignalId)
    requires s.outputs == map[] && s.briefs == map[] && S.Lawful(py) && CanRun(py, s, steps)
    requires key in After(py, s, steps).briefs && x in After(py, s, steps).briefs[key]
    ensures MayRead(After(py, s, steps).signals, x, Some(key.tenant))
  {
    EveryBriefIsSound(py, s, steps);
    assert SoundBrief(After(py, s, steps), key);
  }

  lemma SoundCitation(t: State, id: SignalId, c: S.Citation)
    requires SoundOutput(t, id) && c in t.outputs[id].output.citations
    ensures t.outputs[id].tenant == t.signals[id].tenant && MayRead(t.signals, c.signalId, t.signals[id].tenant)
  {
    var citations := t.outputs[id].output.citations;
    var i :| 0 <= i < |citations| && citations[i] == c;
    assert CitedIds(citations)[i] == c.signalId;
    hide CitedIds;
    assert c.signalId in CitedIds(citations);
    assert Readable(t.signals, c.signalId, t.outputs[id].tenant);
  }

  /** Nor does any stored output cite a signal that its own signal's tenant may not read. */
  lemma OutputsCiteReadableSignals(py: S.Script, s: State, steps: seq<Step>, id: SignalId, c: S.Citation)
    requires s.outputs == map[] && s.briefs == map[] && S.Lawful(py) && CanRun(py, s, steps)
    requires id in After(py, s, steps).outputs && c in After(py, s, steps).outputs[id].output.citations
    ensures var t := After(py, s, steps);
            id in t.signals && t.outputs[id].tenant == t.signals[id].tenant &&
            MayRead(t.signals, c.signalId, t.signals[id].tenant)
  {
    EveryBriefIsSound(py, s, steps);
    SoundCitation(After(py, s, steps), id, c);
  }
}
