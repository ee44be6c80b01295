/** Evidence ids on their way from similarity search to a tenant's brief: context assembly, citation
    or fallback, the stored output, and the briefs written from it. */
module Provenance {
  import opened Seqs
  import opened Signals
  import S = Synthesis

  /** `failed` is `llm_synthesis_failed`. */
  datatype OutputRow = OutputRow(tenant: Option<Tenant>, output: S.Output, failed: bool)

  /** `(assessment, user, lens version)`; an assessment is (tenant, output, context version). */
  datatype BriefKey = BriefKey(tenant: Tenant, signal: SignalId, contextVersion: nat, user: Option<nat>,
                               lens: Option<nat>)
  datatype State = State(
    signals: map<SignalId, Signal>, outputs: map<SignalId, OutputRow>, briefs: map<BriefKey, seq<SignalId>>)

  predicate Readable(signals: map<SignalId, Signal>, id: SignalId, tenant: Option<Tenant>) {
    id in signals && Visible(signals[id].tenant, tenant)
  }

  // ---------------------------------------------------------------- context assembly

  /** `dict.fromkeys((signal_id, *corroborating, *historical))[:7]`, with at most three historical ids. */
  function EvidenceIds(signal: Signal, id: SignalId, historical: seq<SignalId>): (ids: seq<SignalId>)
    ensures ids != [] && ids[0] == id && Unique(ids) && |ids| <= 7
  {
    var all := [id] + signal.corroborating + Take(historical, 3);
    DistinctKeepsHead(all);
    Take(Distinct(all), 7)
  }

  function CreatedAt(signals: map<SignalId, Signal>, id: SignalId): int {
    if id in signals then signals[id].createdAt else -1
  }

  /** `ORDER BY (signal.id = :signal_id) DESC, signal.created_at DESC`. */
  predicate RowOrder(signals: map<SignalId, Signal>, own: SignalId, a: SignalId, b: SignalId) {
    a == own || (b != own && CreatedAt(signals, a) >= CreatedAt(signals, b))
  }

  function EvidenceRows(signals: map<SignalId, Signal>, id: SignalId, tenant: Option<Tenant>,
                        ids: seq<SignalId>): seq<SignalId> {
    Take(StableSort(Filter(ids, (x: SignalId) => Readable(signals, x, tenant)),
                      (a: SignalId, b: SignalId) => RowOrder(signals, id, a, b)), 7)
  }

  /** `_assemble_context`: None where the code raises. */
  function AssembleContext(signals: map<SignalId, Signal>, id: SignalId, tenant: Option<Tenant>,
                           historical: seq<SignalId>): Option<seq<SignalId>> {
    if id !in signals || signals[id].tenant != tenant || !signals[id].scored then None
    else
      var rows := EvidenceRows(signals, id, tenant, EvidenceIds(signals[id], id, historical));
      if rows == [] || rows[0] != id then None else Some(rows)
  }

  lemma {:induction false} FilterUnique(s: seq<SignalId>, p: SignalId -> bool)
    requires Unique(s)
    ensures Unique(Filter(s, p))
  {
    if s == [] {
    } else {
      assert s[0] !in s[1..];
      FilterUnique(s[1..], p);
    }
  }

  lemma UniqueByMultiset(s: seq<SignalId>, t: seq<SignalId>)
    requires Unique(s) && multiset(s) == multiset(t)
    ensures Unique(t)
  {
    forall x ensures multiset(s)[x] <= 1 {
      MultiplicityOfUnique(s, x);
    }
    forall i, j | 0 <= i < j < |t| ensures t[i] != t[j] {
      assert t == t[..j] + [t[j]] + t[j + 1..];
      assert t[..j] == t[..i] + [t[i]] + t[i + 1..j];
      assert multiset(t)[t[j]] <= 1;
    }
  }

  lemma {:induction false} MultiplicityOfUnique(s: seq<SignalId>, x: SignalId)
    requires Unique(s)
    ensures multiset(s)[x] <= 1
  {
    if s == [] {
    } else {
      MultiplicityOfUnique(s[1..], x);
      assert s == [s[0]] + s[1..];
      assert s[0] !in s[1..];
    }
  }

  /** Sorting the readable candidates keeps each of them once and puts the signal's own row first. */
  lemma RowsAreOrdered(signals: map<SignalId, Signal>, own: SignalId, kept: seq<SignalId>)
    requires Unique(kept) && own in kept
    ensures var rows := StableSort(kept, (a: SignalId, b: SignalId) => RowOrder(signals, own, a, b));
            && Unique(rows) && |rows| == |kept| && rows != [] && rows[0] == own && forall x :: x in rows <==> x in kept
  {
    var le := (a: SignalId, b: SignalId) => RowOrder(signals, own, a, b);
    StableSortSorts(kept, le);
    SortedHasSameElements(kept, le);
    UniqueByMultiset(kept, StableSort(kept, le));
    var first := StableSortHead(kept, le);
    var k :| 0 <= k < |kept| && kept[k] == own;
    assert le(kept[first], kept[k]);
  }

  /** Assembly fails only when the signal itself is not there for the worker's tenant; the later check
      on the first row never fires. What it returns is the readable part of the candidate ids, once
      each, the signal itself first. */
  lemma ContextIsReadable(signals: map<SignalId, Signal>, id: SignalId, tenant: Option<Tenant>,
                          historical: seq<SignalId>)
    ensures var context := AssembleContext(signals, id, tenant, historical);
            && (context.Some? <==> id in signals && signals[id].tenant == tenant && signals[id].scored)
            && (context.Some? ==>
                  var rows := context.value;
                  && rows != [] && rows[0] == id && Unique(rows)
                  && forall x :: x in rows <==>
                     x in EvidenceIds(signals[id], id, historical) && Readable(signals, x, tenant))
  {
    hide RowOrder, StableSort, Unique;
    if id in signals && signals[id].tenant == tenant && signals[id].scored {
      var ids := EvidenceIds(signals[id], id, historical);
      var p := (x: SignalId) => Readable(signals, x, tenant);
      assert id in ids && Readable(signals, id, tenant);
      FilterUnique(ids, p);
      RowsAreOrdered(signals, id, Filter(ids, p));
    }
  }

  /** Nothing the similarity search proposed for this tenant is dropped by the tenant filter. */
  lemma SearchedHistoryIsReadable(signals: map<SignalId, Signal>, embeddings: seq<Embedding>, id: SignalId,
                                  tenant: Option<Tenant>, threshold: real, limit: nat, matches: seq<Match>, i: nat)
    requires EmbeddingInv(signals, embeddings) &&
             SearchResult(signals, embeddings, id, tenant, threshold, limit, matches)
    requires i < |matches|
    ensures Readable(signals, matches[i].signal, tenant) && matches[i].signal != id
  {
    var m := matches[i];
    assert Embedding(m.signal, m.tenant) in embeddings;
    var j :| 0 <= j < |embeddings| && embeddings[j] == Embedding(m.signal, m.tenant);
  }

  // ---------------------------------------------------------------- synthesis

  function Items(signals: map<SignalId, Signal>, rows: seq<SignalId>): (items: seq<S.EvidenceItem>)
    requires forall x :: x in rows ==> x in signals
    ensures |items| == |rows|
    ensures forall i :: 0 <= i < |rows| ==>
              var x := signals[rows[i]];
              items[i] == S.EvidenceItem(rows[i], x.sourceName, x.title, x.body, x.url, x.publishedAt)
  {
    if rows == [] then []
    else
      var x := signals[rows[0]];
      [S.EvidenceItem(rows[0], x.sourceName, x.title, x.body, x.url, x.publishedAt)] + Items(signals, rows[1..])
  }

  function CitedIds(citations: seq<S.Citation>): (ids: seq<SignalId>)
    ensures |ids| == |citations| && forall i :: 0 <= i < |ids| ==> ids[i] == citations[i].signalId
  {
    if citations == [] then [] else [citations[0].signalId] + CitedIds(citations[1..])
  }

  /** `run_synthesis`: `answer` is whatever the language model returned. */
  ghost function RunSynthesis(py: S.Script, s: State, id: SignalId, tenant: Option<Tenant>, historical: seq<SignalId>,
                              band: S.Band, answer: Option<S.Output>): State {
    ContextIsReadable(s.signals, id, tenant, historical);
    match AssembleContext(s.signals, id, tenant, historical)
    case None => s
    case Some(rows) =>
      var (output, failed) := S.Synthesize(py, Items(s.signals, rows), band, answer);
      if S.Fits(output) then s.(outputs := s.outputs[id := OutputRow(tenant, output, failed)]) else s
  }

  // ---------------------------------------------------------------- briefs

  /** The visibility filter of `_load_package`. */
  predicate PackageFor(s: State, id: SignalId, tenant: Tenant) {
    id in s.outputs && Visible(s.outputs[id].tenant, Some(tenant)) && Readable(s.signals, id, Some(tenant))
  }

  /** `_evidence_ids`. */
  function BriefEvidence(s: State, id: SignalId): seq<SignalId>
    requires id in s.outputs
  {
    Distinct([id] + CitedIds(s.outputs[id].output.citations))
  }

  /** One tenant's turn in `run_decision_briefs`: the company brief and one per decision lens. */
  function BriefTenant(s: State, id: SignalId, tenant: Tenant, contextVersion: nat, lenses: seq<(nat, nat)>): State {
    if !PackageFor(s, id, tenant) then s
    else
      var company := s.(briefs := s.briefs[BriefKey(tenant, id, contextVersion, None, None) := BriefEvidence(s, id)]);
      BriefUsers(company, id, tenant, contextVersion, lenses)
  }

  function BriefUsers(s: State, id: SignalId, tenant: Tenant, contextVersion: nat, lenses: seq<(nat, nat)>): (t: State)
    requires id in s.outputs
    ensures t.signals == s.signals && t.outputs == s.outputs
  {
    if lenses == [] then s
    else
      var last := lenses[|lenses| - 1];
      var t := BriefUsers(s, id, tenant, contextVersion, lenses[..|lenses| - 1]);
      t.(briefs := t.briefs[BriefKey(tenant, id, contextVersion, Some(last.0), Some(last.1)) := BriefEvidence(s, id)])
  }

  /** A brief's evidence: duplicate-free, led by its own signal, and readable by its tenant. */
  ghost predicate SoundBrief(s: State, key: BriefKey) {
    key in s.briefs &&
    var ids := s.briefs[key];
    ids != [] && ids[0] == key.signal && Unique(ids) &&
    forall x :: x in ids ==> Readable(s.signals, x, Some(key.tenant))
  }

  ghost predicate ProvenanceInv(s: State) {
    && (forall id :: id in s.outputs ==> SoundOutput(s, id))
    && (forall key :: key in s.briefs ==> SoundBrief(s, key))
  }

  /** A stored output belongs to its signal's tenant and cites only what that tenant may read. */
  ghost predicate SoundOutput(s: State, id: SignalId) {
    id in s.outputs && id in s.signals && s.outputs[id].tenant == s.signals[id].tenant &&
    forall c :: c in CitedIds(s.outputs[id].output.citations) ==> Readable(s.signals, c, s.outputs[id].tenant)
  }

  /** Model answer or fallback, every stored citation is one of the context rows. */
  lemma CitationsComeFromContext(py: S.Script, signals: map<SignalId, Signal>, rows: seq<SignalId>, band: S.Band,
                                 answer: Option<S.Output>)
    requires S.Lawful(py) && rows != [] && Unique(rows) && forall x :: x in rows ==> x in signals
    ensures var output := S.Synthesize(py, Items(signals, rows), band, answer).0;
            forall c :: c in CitedIds(output.citations) ==> c in rows
  {
    var items := Items(signals, rows);
    var output := S.Synthesize(py, items, band, answer).0;
    S.StoredOutputIsGrounded(py, items, band, answer);
    forall c | c in CitedIds(output.citations) ensures c in rows {
      var i :| 0 <= i < |output.citations| && CitedIds(output.citations)[i] == c;
      assert S.Allowed(items, output.citations[i].signalId);
      var j :| 0 <= j < |items| && items[j].signalId == c;
      assert rows[j] == c;
    }
  }

  lemma SynthesisKeepsProvenance(py: S.Script, s: State, id: SignalId, tenant: Option<Tenant>,
                                 historical: seq<SignalId>,
                                 band: S.Band, answer: Option<S.Output>)
    requires ProvenanceInv(s) && S.Lawful(py)
    ensures ProvenanceInv(RunSynthesis(py, s, id, tenant, historical, band, answer))
  {
    var t := RunSynthesis(py, s, id, tenant, historical, band, answer);
    ContextIsReadable(s.signals, id, tenant, historical);
    var context := AssembleContext(s.signals, id, tenant, historical);
    if context.Some? {
      var rows := context.value;
      var items := Items(s.signals, rows);
      CitationsComeFromContext(py, s.signals, rows, band, answer);
      assert id in t.outputs && t.outputs != s.outputs ==> SoundOutput(t, id);
    }
    forall key | key in t.briefs ensures SoundBrief(t, key) {
      assert SoundBrief(s, key);
    }
    forall k | k in t.outputs ensures SoundOutput(t, k) {
      if k != id || t.outputs == s.outputs {
        assert SoundOutput(s, k);
      }
    }
  }

  /** The evidence of a brief for a tenant that passes the package filter is sound, whichever event
      or output path it came from. */
  lemma EvidenceIsSound(s: State, id: SignalId, tenant: Tenant)
    requires ProvenanceInv(s) && PackageFor(s, id, tenant)
    ensures var ids := BriefEvidence(s, id);
            ids != [] && ids[0] == id && Unique(ids) && forall x :: x in ids ==> Readable(s.signals, x, Some(tenant))
  {
    assert SoundOutput(s, id);
    DistinctKeepsHead([id] + CitedIds(s.outputs[id].output.citations));
    forall c | c in CitedIds(s.outputs[id].output.citations) ensures Readable(s.signals, c, Some(tenant)) {
      VisibleIsTransitive(s.signals[c].tenant, s.outputs[id].tenant, Some(tenant));
    }
  }

  lemma WriteBrief(s: State, key: BriefKey, ids: seq<SignalId>)
    requires ProvenanceInv(s)
    requires ids != [] && ids[0] == key.signal && Unique(ids) &&
             forall x :: x in ids ==> Readable(s.signals, x, Some(key.tenant))
    ensures ProvenanceInv(s.(briefs := s.briefs[key := ids]))
  {
    var t := s.(briefs := s.briefs[key := ids]);
    forall id | id in t.outputs ensures SoundOutput(t, id) {
      assert SoundOutput(s, id);
    }
    forall k | k in t.briefs ensures SoundBrief(t, k) {
      assert k != key ==> SoundBrief(s, k);
    }
  }

  lemma {:induction false} BriefUsersKeepsProvenance(s: State, id: SignalId, tenant: Tenant, contextVersion: nat,
                                                     lenses: seq<(nat, nat)>)
    requires ProvenanceInv(s) && PackageFor(s, id, tenant)
    ensures ProvenanceInv(BriefUsers(s, id, tenant, contextVersion, lenses))
  {
    if lenses == [] {
    } else {
      var last := lenses[|lenses| - 1];
      BriefUsersKeepsProvenance(s, id, tenant, contextVersion, lenses[..|lenses| - 1]);
      EvidenceIsSound(s, id, tenant);
      WriteBrief(BriefUsers(s, id, tenant, contextVersion, lenses[..|lenses| - 1]),
                 BriefKey(tenant, id, contextVersion, Some(last.0), Some(last.1)), BriefEvidence(s, id));
    }
  }

  lemma DecisionKeepsProvenance(s: State, id: SignalId, tenant: Tenant, contextVersion: nat, lenses: seq<(nat, nat)>)
    requires ProvenanceInv(s)
    ensures ProvenanceInv(BriefTenant(s, id, tenant, contextVersion, lenses))
  {
    if PackageFor(s, id, tenant) {
      EvidenceIsSound(s, id, tenant);
      var key := BriefKey(tenant, id, contextVersion, None, None);
      WriteBrief(s, key, BriefEvidence(s, id));
      BriefUsersKeepsProvenance(s.(briefs := s.briefs[key := BriefEvidence(s, id)]), id, tenant, contextVersion,
                                lenses);
    }
  }

  // ---------------------------------------------------------------- runs

  /** Events carry arbitrary ids and arrive in any order, any number of times. */
  datatype Step =
    | Arrive(id: SignalId, signal: Signal)
    | Revise(id: SignalId, signal: Signal)
    | Synthesise(id: SignalId, tenant: Option<Tenant>, historical: seq<SignalId>, band: S.Band,
                 answer: Option<S.Output>)
    | Decide(id: SignalId, forTenant: Tenant, contextVersion: nat, lenses: seq<(nat, nat)>)

  /** New signals have fresh ids; no worker moves a signal to another tenant. */
  ghost predicate Enabled(s: State, step: Step) {
    match step
    case Arrive(id, signal) => id !in s.signals
    case Revise(id, signal) => id in s.signals && s.signals[id].tenant == signal.tenant
    case _ => true
  }

  ghost function Apply(py: S.Script, s: State, step: Step): State {
    match step
    case Arrive(id, signal) => s.(signals := s.signals[id := signal])
    case Revise(id, signal) => s.(signals := s.signals[id := signal])
    case Synthesise(id, tenant, historical, band, answer) => RunSynthesis(py, s, id, tenant, historical, band, answer)
    case Decide(id, tenant, contextVersion, lenses) => BriefTenant(s, id, tenant, contextVersion, lenses)
  }

  ghost predicate CanRun(py: S.Script, s: State, steps: seq<Step>)
    decreases |steps|
  {
    steps == [] || (Enabled(s, steps[0]) && CanRun(py, Apply(py, s, steps[0]), steps[1..]))
  }

  ghost function After(py: S.Script, s: State, steps: seq<Step>): State
    decreases |steps|
  {
    if steps == [] then s else After(py, Apply(py, s, steps[0]), steps[1..])
  }

  lemma SignalsKeepProvenance(s: State, id: SignalId, signal: Signal)
    requires ProvenanceInv(s) && (id in s.signals ==> s.signals[id].tenant == signal.tenant)
    ensures ProvenanceInv(s.(signals := s.signals[id := signal]))
  {
    var t := s.(signals := s.signals[id := signal]);
    forall k | k in t.outputs ensures SoundOutput(t, k) {
      assert SoundOutput(s, k);
    }
    forall k | k in t.briefs ensures SoundBrief(t, k) {
      assert SoundBrief(s, k);
    }
  }

  /** Every brief any run writes has duplicate-free evidence, led by its own signal, all of it public
      or its own tenant's. */
  lemma {:induction false} EveryBriefIsSound(py: S.Script, s: State, steps: seq<Step>)
    requires ProvenanceInv(s) && S.Lawful(py) && CanRun(py, s, steps)
    ensures ProvenanceInv(After(py, s, steps))
    decreases |steps|
  {
    if steps == [] {
    } else {
      match steps[0] {
        case Arrive(id, signal) => SignalsKeepProvenance(s, id, signal);
        case Revise(id, signal) => SignalsKeepProvenance(s, id, signal);
        case Synthesise(id, tenant, historical, band, answer) =>
          SynthesisKeepsProvenance(py, s, id, tenant, historical, band, answer);
        case Decide(id, tenant, contextVersion, lenses) =>
          DecisionKeepsProvenance(s, id, tenant, contextVersion, lenses);
      }
      EveryBriefIsSound(py, Apply(py, s, steps[0]), steps[1..]);
    }
  }

  // ---------------------------------------------------------------- the integrity gate

  /** The evidence query of the brief page: rows with a listed id that the tenant may read. */
  function PageRows(signals: map<SignalId, Signal>, ids: seq<SignalId>, tenant: Tenant): set<SignalId> {
    set x | x in ids && Readable(signals, x, Some(tenant))
  }

  function IdSet(ids: seq<SignalId>): set<SignalId> {
    set x | x in ids
  }

  /** The page shows the brief instead of a 503. */
  predicate GatePasses(signals: map<SignalId, Signal>, ids: seq<SignalId>, tenant: Tenant) {
    PageRows(signals, ids, tenant) != {} && |PageRows(signals, ids, tenant)| == |IdSet(ids)|
  }

  /** The gate compares counts; it passes exactly when the list is non-empty and all of it readable. */
  lemma GatePassesIff(signals: map<SignalId, Signal>, ids: seq<SignalId>, tenant: Tenant)
    ensures GatePasses(signals, ids, tenant) <==>
            ids != [] && forall x :: x in ids ==> Readable(signals, x, Some(tenant))
  {
    var rows, all := PageRows(signals, ids, tenant), IdSet(ids);
    assert rows <= all;
    assert all == rows + (all - rows) && |all| == |rows| + |all - rows|;
    if ids != [] && forall x :: x in ids ==> Readable(signals, x, Some(tenant)) {
      assert ids[0] in rows;
      assert all - rows == {};
    }
    if GatePasses(signals, ids, tenant) {
      assert all - rows == {};
      forall x | x in ids ensures Readable(signals, x, Some(tenant)) {
        assert x in all;
      }
    }
  }

  /** So the gate never fires on a brief the pipeline wrote. */
  lemma GateNeverFires(py: S.Script, s: State, steps: seq<Step>, key: BriefKey)
    requires s.outputs == map[] && s.briefs == map[] && S.Lawful(py) && CanRun(py, s, steps)
    requires key in After(py, s, steps).briefs
    ensures var t := After(py, s, steps); GatePasses(t.signals, t.briefs[key], key.tenant)
  {
    EveryBriefIsSound(py, s, steps);
    var t := After(py, s, steps);
    assert SoundBrief(t, key);
    GatePassesIff(t.signals, t.briefs[key], key.tenant);
  }

  // ---------------------------------------------------------------- the decision worker

  datatype Emitted = Emitted(key: BriefKey, evidence: seq<SignalId>)

  /** `run_decision_briefs` for one event, over the applicable tenants. */
  class DecisionWorker {
    var briefs: map<BriefKey, seq<SignalId>>

    /** One tenant: company brief first, then each lens; every emitted payload carries the evidence of
        the row it announces. */
    method BriefOneTenant(s: State, id: SignalId, tenant: Tenant, contextVersion: nat, lenses: seq<(nat, nat)>)
      returns (emitted: seq<Emitted>)
      requires s.briefs == briefs
      modifies this
      ensures s.(briefs := briefs) == BriefTenant(s, id, tenant, contextVersion, lenses)
      ensures |emitted| == if PackageFor(s, id, tenant) then 1 + |lenses| else 0
      ensures forall i :: 0 <= i < |emitted| ==>
                emitted[i].key in briefs && briefs[emitted[i].key] == emitted[i].evidence == BriefEvidence(s, id) &&
                emitted[i].key ==
                  BriefKey(tenant, id, contextVersion, if i == 0 then None else Some(lenses[i - 1].0),
                           if i == 0 then None else Some(lenses[i - 1].1))
    {
      emitted := [];
      if id !in s.outputs || !PackageFor(s, id, tenant) {
        return;
      }
      var evidence := BriefEvidence(s, id);
      var key := BriefKey(tenant, id, contextVersion, None, None);
      briefs := briefs[key := evidence];
      emitted := [Emitted(key, evidence)];
      ghost var company := s.(briefs := briefs);
      for i := 0 to |lenses|
        invariant |emitted| == 1 + i
        invariant s.(briefs := briefs) == BriefUsers(company, id, tenant, contextVersion, lenses[..i])
        invariant forall j :: 0 <= j < |emitted| ==>
                    emitted[j].key in briefs && briefs[emitted[j].key] == emitted[j].evidence == evidence &&
                    emitted[j].key ==
                      BriefKey(tenant, id, contextVersion, if j == 0 then None else Some(lenses[j - 1].0),
                               if j == 0 then None else Some(lenses[j - 1].1))
      {
        assert lenses[..i + 1][..i] == lenses[..i];
        key := BriefKey(tenant, id, contextVersion, Some(lenses[i].0), Some(lenses[i].1));
        briefs := briefs[key := evidence];
        emitted := emitted + [Emitted(key, evidence)];
      }
      assert lenses[..|lenses|] == lenses;
    }
  }
}
