/** The embedding worker's writes: canonical pointers of near-duplicates and trend clusters. One step
    is one worker transaction, and each signal is embedded once. */
module Clusters {
  import opened Seqs
  import opened Signals

  datatype ClusterStatus = EMERGING | ACTIVE
  datatype Cluster = Cluster(tenant: Option<Tenant>, representative: SignalId, count: nat, status: ClusterStatus)
  datatype Tables = Tables(signals: map<SignalId, Signal>, embeddings: seq<Embedding>, clusters: seq<Cluster>)

  /** `next((match for match in matches if ...), None)`. */
  function FirstWithin(matches: seq<Match>, limit: real): (m: Option<Match>)
    ensures m.None? <==> forall i :: 0 <= i < |matches| ==> matches[i].distance > limit
    ensures m.Some? ==> exists i :: 0 <= i < |matches| && m.value == matches[i] && matches[i].distance <= limit &&
                                    forall j :: 0 <= j < i ==> matches[j].distance > limit
  {
    if matches == [] then None
    else if matches[0].distance <= limit then Some(matches[0])
    else FirstWithin(matches[1..], limit)
  }

  predicate Related(m: Match, limit: real, tenant: Option<Tenant>) {
    m.distance <= limit && m.tenant == tenant
  }

  function FirstRelated(matches: seq<Match>, limit: real, tenant: Option<Tenant>): (m: Option<Match>)
    ensures m.None? <==> forall i :: 0 <= i < |matches| ==> !Related(matches[i], limit, tenant)
    ensures m.Some? ==> exists i :: 0 <= i < |matches| && m.value == matches[i] && Related(matches[i], limit, tenant) &&
                                    forall j :: 0 <= j < i ==> !Related(matches[j], limit, tenant)
  {
    if matches == [] then None
    else if Related(matches[0], limit, tenant) then Some(matches[0])
    else FirstRelated(matches[1..], limit, tenant)
  }

  /** `UPDATE pipeline.signals ... WHERE id = ... AND tenant_id IS NOT DISTINCT FROM ...`. */
  function SetCanonical(signals: map<SignalId, Signal>, id: SignalId, tenant: Option<Tenant>,
                        canonical: SignalId): map<SignalId, Signal> {
    if id in signals && signals[id].tenant == tenant then signals[id := signals[id].(canonical := Some(canonical))]
    else signals
  }

  function SetCluster(signals: map<SignalId, Signal>, id: SignalId, tenant: Option<Tenant>,
                      cluster: nat): map<SignalId, Signal> {
    if id in signals && signals[id].tenant == tenant then signals[id := signals[id].(cluster := Some(cluster))]
    else signals
  }

  function Members(signals: map<SignalId, Signal>, cluster: nat, tenant: Option<Tenant>): set<SignalId> {
    set x | x in signals && signals[x].cluster == Some(cluster) && signals[x].tenant == tenant
  }

  /** The closing UPDATE of `_assign_cluster`: recount the members and restate the status. */
  function Recount(t: Tables, cluster: nat, tenant: Option<Tenant>): Tables {
    if cluster < |t.clusters| && t.clusters[cluster].tenant == tenant then
      var n := |Members(t.signals, cluster, tenant)|;
      var row := t.clusters[cluster].(count := n, status := if n >= 3 then ACTIVE else EMERGING);
      t.(clusters := t.clusters[cluster := row])
    else t
  }

  function ClusterFor(t: Tables, related: Match): nat {
    if related.cluster.Some? then related.cluster.value else |t.clusters|
  }

  /** Open a cluster around the related signal unless it is in one; the new random id is the next row. */
  function OpenCluster(t: Tables, related: Match, tenant: Option<Tenant>): Tables {
    if related.cluster.Some? then t
    else t.(clusters := t.clusters + [Cluster(tenant, related.signal, 2, EMERGING)],
            signals := SetCluster(t.signals, related.signal, tenant, |t.clusters|))
  }

  function JoinCluster(t: Tables, id: SignalId, related: Match, tenant: Option<Tenant>): Tables {
    var base := OpenCluster(t, related, tenant);
    base.(signals := SetCluster(base.signals, id, tenant, ClusterFor(t, related)))
  }

  /** `_assign_cluster`. */
  function AssignCluster(t: Tables, id: SignalId, tenant: Option<Tenant>, matches: seq<Match>,
                         threshold: real): (Tables, Option<nat>) {
    match FirstRelated(matches, threshold, tenant)
    case None => (t, None)
    case Some(related) =>
      (Recount(JoinCluster(t, id, related, tenant), ClusterFor(t, related), tenant), Some(ClusterFor(t, related)))
  }

  function MarkDuplicate(t: Tables, id: SignalId, tenant: Option<Tenant>, matches: seq<Match>, dedup: real): Tables {
    match FirstWithin(matches, dedup)
    case None => t
    case Some(m) => t.(signals := SetCanonical(t.signals, id, tenant, m.signal))
  }

  /** The transaction of `run_embedding` once the vector and the matches are known. */
  function Embed(t: Tables, id: SignalId, tenant: Option<Tenant>, matches: seq<Match>, dedup: real,
                 threshold: real): Tables {
    var stored := t.(embeddings := t.embeddings + [Embedding(id, tenant)]);
    AssignCluster(MarkDuplicate(stored, id, tenant, matches, dedup), id, tenant, matches, threshold).0
  }

  ghost predicate Ready(t: Tables, id: SignalId, tenant: Option<Tenant>, matches: seq<Match>, threshold: real,
                        limit: nat) {
    && id in t.signals && t.signals[id].tenant == tenant && t.signals[id].scored
    && !Embedded(t.embeddings, id)
    && SearchResult(t.signals, t.embeddings, id, tenant, threshold, limit, matches)
  }

  // ---------------------------------------------------------------- invariant

  ghost predicate ClusterInv(t: Tables) {
    && EmbeddingInv(t.signals, t.embeddings)
    && MembersInPlace(t)
    && (forall c :: 0 <= c < |t.clusters| ==> CountRight(t, c))
  }

  ghost predicate CanonicalInv(t: Tables) {
    forall x :: x in t.signals && t.signals[x].canonical.Some? ==> PointsBack(t, x, t.signals[x].canonical.value)
  }

  /** Signal `y` was embedded before `x`, and `x`'s tenant may read it. */
  ghost predicate PointsBack(t: Tables, x: SignalId, y: SignalId) {
    x in t.signals && y in t.signals && Embedded(t.embeddings, x) && Embedded(t.embeddings, y) &&
    Rank(t.embeddings, y) < Rank(t.embeddings, x) && Visible(t.signals[y].tenant, t.signals[x].tenant)
  }

  lemma RankGrows(embeddings: seq<Embedding>, row: Embedding, id: SignalId)
    requires Embedded(embeddings, id)
    ensures Embedded(embeddings + [row], id) && Rank(embeddings + [row], id) == Rank(embeddings, id)
  {
    var i :| 0 <= i < |embeddings| && embeddings[i].signal == id;
    assert (embeddings + [row])[i].signal == id;
    assert forall j :: 0 <= j < |embeddings| ==> (embeddings + [row])[j] == embeddings[j];
    var now, was := Rank(embeddings + [row], id), Rank(embeddings, id);
    assert (embeddings + [row])[was].signal == id && (now < |embeddings| ==> embeddings[now].signal == id);
  }

  lemma NewRank(embeddings: seq<Embedding>, row: Embedding)
    requires !Embedded(embeddings, row.signal)
    ensures Embedded(embeddings + [row], row.signal) && Rank(embeddings + [row], row.signal) == |embeddings|
  {
    assert (embeddings + [row])[|embeddings|] == row;
  }

  /** Only the cluster column changes; keys, tenants and canonical pointers stay. */
  ghost predicate OnlyClusters(before: map<SignalId, Signal>, after: map<SignalId, Signal>) {
    after.Keys == before.Keys && forall x :: x in before ==> after[x] == before[x].(cluster := after[x].cluster)
  }

  lemma SetClusterKeeps(signals: map<SignalId, Signal>, id: SignalId, tenant: Option<Tenant>, cluster: nat)
    ensures OnlyClusters(signals, SetCluster(signals, id, tenant, cluster))
  {
  }

  lemma AssignKeeps(t: Tables, id: SignalId, tenant: Option<Tenant>, matches: seq<Match>, threshold: real)
    ensures var u := AssignCluster(t, id, tenant, matches, threshold).0;
            u.embeddings == t.embeddings && OnlyClusters(t.signals, u.signals)
  {
    var related := FirstRelated(matches, threshold, tenant);
    if related.Some? {
      SetClusterKeeps(t.signals, related.value.signal, tenant, |t.clusters|);
      SetClusterKeeps(OpenCluster(t, related.value, tenant).signals, id, tenant, ClusterFor(t, related.value));
    }
  }

  lemma StoringKeepsPointer(t: Tables, row: Embedding, x: SignalId, y: SignalId)
    requires PointsBack(t, x, y)
    ensures PointsBack(t.(embeddings := t.embeddings + [row]), x, y)
  {
    RankGrows(t.embeddings, row, x);
    RankGrows(t.embeddings, row, y);
  }

  /** The row just stored may point at any match of the search. */
  lemma NewPointer(t: Tables, id: SignalId, tenant: Option<Tenant>, m: Match)
    requires EmbeddingInv(t.signals, t.embeddings) && !Embedded(t.embeddings, id)
    requires id in t.signals && t.signals[id].tenant == tenant
    requires Embedding(m.signal, m.tenant) in t.embeddings && Visible(m.tenant, tenant)
    ensures PointsBack(t.(embeddings := t.embeddings + [Embedding(id, tenant)]), id, m.signal)
  {
    var row := Embedding(id, tenant);
    var i :| 0 <= i < |t.embeddings| && t.embeddings[i] == Embedding(m.signal, m.tenant);
    assert Embedded(t.embeddings, m.signal);
    RankGrows(t.embeddings, row, m.signal);
    NewRank(t.embeddings, row);
  }

  /** Pointers do not depend on anything a cluster or pointer update changes. */
  lemma PointerIsFramed(t: Tables, u: Tables, x: SignalId, y: SignalId)
    requires PointsBack(t, x, y) && u.embeddings == t.embeddings && u.signals.Keys == t.signals.Keys
    requires forall k :: k in t.signals ==> u.signals[k].tenant == t.signals[k].tenant
    ensures PointsBack(u, x, y)
  {
  }

  lemma CanonicalInvStep(t: Tables, id: SignalId, tenant: Option<Tenant>, matches: seq<Match>, dedup: real,
                         threshold: real, limit: nat)
    requires CanonicalInv(t) && EmbeddingInv(t.signals, t.embeddings) && Ready(t, id, tenant, matches, threshold, limit)
    ensures CanonicalInv(Embed(t, id, tenant, matches, dedup, threshold))
  {
    hide PointsBack, EmbeddingInv, AssignCluster;
    var stored := t.(embeddings := t.embeddings + [Embedding(id, tenant)]);
    var marked := MarkDuplicate(stored, id, tenant, matches, dedup);
    var u := Embed(t, id, tenant, matches, dedup, threshold);
    AssignKeeps(marked, id, tenant, matches, threshold);
    forall x | x in u.signals && u.signals[x].canonical.Some? ensures PointsBack(u, x, u.signals[x].canonical.value) {
      var y := u.signals[x].canonical.value;
      var found := FirstWithin(matches, dedup);
      if x == id && found.Some? {
        NewPointer(t, id, tenant, found.value);
      } else {
        assert t.signals[x].canonical == Some(y);
        StoringKeepsPointer(t, Embedding(id, tenant), x, y);
      }
      PointerIsFramed(stored, u, x, y);
    }
  }

  /** Following canonical pointers never comes back: along any chain the rank strictly falls, and the
      tenant of the start may read every signal on it. */
  lemma {:induction false} CanonicalChainsAreAcyclic(t: Tables, path: seq<SignalId>)
    requires CanonicalInv(t) && |path| >= 2
    requires forall i :: 0 <= i < |path| ==> path[i] in t.signals
    requires forall i :: 0 <= i < |path| - 1 ==> t.signals[path[i]].canonical == Some(path[i + 1])
    ensures path[0] != path[|path| - 1]
    ensures Rank(t.embeddings, path[|path| - 1]) < Rank(t.embeddings, path[0])
    ensures Visible(t.signals[path[|path| - 1]].tenant, t.signals[path[0]].tenant)
  {
    if |path| <= 2 {
    } else {
      CanonicalChainsAreAcyclic(t, path[1..]);
      VisibleIsTransitive(t.signals[path[|path| - 1]].tenant, t.signals[path[1]].tenant, t.signals[path[0]].tenant);
    }
  }

  /** Joining moves exactly the newcomer, and with a new cluster its related signal, into it. */
  lemma JoinEffect(t: Tables, id: SignalId, m: Match, tenant: Option<Tenant>)
    requires id in t.signals && t.signals[id].tenant == tenant && m.signal in t.signals
    requires t.signals[m.signal].tenant == tenant
    requires m.signal != id && m.cluster == t.signals[m.signal].cluster
    ensures var u, c := JoinCluster(t, id, m, tenant), ClusterFor(t, m);
            && u.embeddings == t.embeddings && OnlyClusters(t.signals, u.signals)
            && u.signals[id].cluster == Some(c) && u.signals[m.signal].cluster == Some(c)
            && (forall x :: x in t.signals && x != id && x != m.signal ==> u.signals[x] == t.signals[x])
            && u.clusters == if m.cluster.Some? then t.clusters
                             else t.clusters + [Cluster(tenant, m.signal, 2, EMERGING)]
  {
    var base, c := OpenCluster(t, m, tenant), ClusterFor(t, m);
    SetClusterKeeps(t.signals, m.signal, tenant, |t.clusters|);
    assert OnlyClusters(t.signals, base.signals) && base.signals[m.signal].cluster == Some(c);
    SetClusterKeeps(base.signals, id, tenant, c);
  }

  lemma MembersUnmoved(before: map<SignalId, Signal>, after: map<SignalId, Signal>, c: nat, k: Option<Tenant>)
    requires after.Keys == before.Keys
    requires forall x :: x in before ==> after[x].tenant == before[x].tenant
    requires forall x :: x in before ==> (after[x].cluster == Some(c) <==> before[x].cluster == Some(c))
    ensures Members(after, c, k) == Members(before, c, k)
  {
  }

  lemma StoringKeepsCounts(t: Tables, id: SignalId)
    requires ClusterInv(t) && id in t.signals && !Embedded(t.embeddings, id)
    ensures var u := t.(embeddings := t.embeddings + [Embedding(id, t.signals[id].tenant)]);
            ClusterInv(u) && Embedded(u.embeddings, id) &&
            forall x :: Embedded(t.embeddings, x) ==> Embedded(u.embeddings, x)
  {
    var row := Embedding(id, t.signals[id].tenant);
    var u := t.(embeddings := t.embeddings + [row]);
    NewRank(t.embeddings, row);
    forall x | Embedded(t.embeddings, x) ensures Embedded(u.embeddings, x) {
      RankGrows(t.embeddings, row, x);
    }
    forall i | 0 <= i < |t.embeddings| ensures t.embeddings[i].signal != id {
      assert Embedded(t.embeddings, t.embeddings[i].signal);
    }
    forall c | 0 <= c < |u.clusters| ensures CountRight(u, c) {
      assert CountRight(t, c);
    }
  }

  /** Counts do not depend on canonical pointers. */
  lemma PointersDoNotCount(t: Tables, u: Tables)
    requires ClusterInv(t) && u.embeddings == t.embeddings && u.clusters == t.clusters
    requires u.signals.Keys == t.signals.Keys
    requires forall x :: x in t.signals ==> u.signals[x] == t.signals[x].(canonical := u.signals[x].canonical)
    ensures ClusterInv(u)
  {
    hide Embedded;
    forall c | 0 <= c < |u.clusters| ensures CountRight(u, c) {
      assert CountRight(t, c);
      MembersUnmoved(t.signals, u.signals, c, t.clusters[c].tenant);
    }
  }

  lemma MarkingKeepsCounts(t: Tables, id: SignalId, tenant: Option<Tenant>, matches: seq<Match>, dedup: real)
    requires ClusterInv(t)
    ensures var u := MarkDuplicate(t, id, tenant, matches, dedup);
            ClusterInv(u) && u.embeddings == t.embeddings && u.clusters == t.clusters &&
            u.signals.Keys == t.signals.Keys &&
            forall x :: x in t.signals ==> u.signals[x] == t.signals[x].(canonical := u.signals[x].canonical)
  {
    hide ClusterInv;
    PointersDoNotCount(t, MarkDuplicate(t, id, tenant, matches, dedup));
  }

  lemma StoredAndMarked(t: Tables, id: SignalId, tenant: Option<Tenant>, matches: seq<Match>, dedup: real,
                        threshold: real, limit: nat)
    requires ClusterInv(t) && Ready(t, id, tenant, matches, threshold, limit)
    ensures var stored := t.(embeddings := t.embeddings + [Embedding(id, tenant)]);
            var marked := MarkDuplicate(stored, id, tenant, matches, dedup);
            && ClusterInv(marked) && Embedded(marked.embeddings, id)
            && marked.signals.Keys == t.signals.Keys
            && (forall x :: x in t.signals ==>
                marked.signals[x] == t.signals[x].(canonical := marked.signals[x].canonical))
            && (forall x :: Embedded(t.embeddings, x) ==> Embedded(marked.embeddings, x))
  {
    hide ClusterInv, Embedded, MarkDuplicate;
    StoringKeepsCounts(t, id);
    MarkingKeepsCounts(t.(embeddings := t.embeddings + [Embedding(id, tenant)]), id, tenant, matches, dedup);
  }

  lemma ClusterInvStep(t: Tables, id: SignalId, tenant: Option<Tenant>, matches: seq<Match>, dedup: real,
                       threshold: real, limit: nat)
    requires ClusterInv(t) && Ready(t, id, tenant, matches, threshold, limit)
    ensures ClusterInv(Embed(t, id, tenant, matches, dedup, threshold))
  {
    StoredAndMarked(t, id, tenant, matches, dedup, threshold, limit);
    NotYetClustered(t, id);
    hide ClusterInv, Embedded, Rank;
    var related := FirstRelated(matches, threshold, tenant);
    if related.Some? {
      MatchIsOwn(t, id, tenant, matches, threshold, limit, related.value);
      var stored := t.(embeddings := t.embeddings + [Embedding(id, tenant)]);
      JoinKeepsCounts(MarkDuplicate(stored, id, tenant, matches, dedup), id, tenant, related.value);
    }
  }

  ghost predicate MembersInPlace(t: Tables) {
    forall x :: x in t.signals && t.signals[x].cluster.Some? ==>
      var c := t.signals[x].cluster.value;
      c < |t.clusters| && t.clusters[c].tenant == t.signals[x].tenant && Embedded(t.embeddings, x)
  }

  predicate CountRight(t: Tables, c: nat)
    requires c < |t.clusters|
  {
    var row := t.clusters[c];
    row.count == |Members(t.signals, c, row.tenant)| && row.count >= 2 && (row.status == ACTIVE <==> row.count >= 3)
  }

  lemma RecountRestores(t: Tables, c: nat, tenant: Option<Tenant>)
    requires EmbeddingInv(t.signals, t.embeddings) && MembersInPlace(t)
    requires c < |t.clusters| && t.clusters[c].tenant == tenant && |Members(t.signals, c, tenant)| >= 2
    requires forall k :: 0 <= k < |t.clusters| && k != c ==> CountRight(t, k)
    ensures ClusterInv(Recount(t, c, tenant))
  {
    var u := Recount(t, c, tenant);
    forall k | 0 <= k < |u.clusters| ensures CountRight(u, k) {
      if k != c {
        assert CountRight(t, k) && u.clusters[k] == t.clusters[k];
      }
    }
  }

  lemma JoinedMembers(t: Tables, id: SignalId, tenant: Option<Tenant>, m: Match)
    requires ClusterInv(t)
    requires id in t.signals && t.signals[id].tenant == tenant && t.signals[id].cluster.None?
    requires Embedded(t.embeddings, id)
    requires m.signal in t.signals && m.signal != id && m.cluster == t.signals[m.signal].cluster
    requires t.signals[m.signal].tenant == tenant && Embedded(t.embeddings, m.signal)
    ensures MembersInPlace(JoinCluster(t, id, m, tenant))
    ensures |Members(JoinCluster(t, id, m, tenant).signals, ClusterFor(t, m), tenant)| >= 2
  {
    JoinEffect(t, id, m, tenant);
    TwoMembers(JoinCluster(t, id, m, tenant).signals, id, m.signal, ClusterFor(t, m), tenant);
    hide JoinCluster, Members, Embedded, CountRight;
    PlacesAfterJoin(t, JoinCluster(t, id, m, tenant), id, m, tenant);
  }

  lemma TwoMembers(signals: map<SignalId, Signal>, a: SignalId, b: SignalId, c: nat, tenant: Option<Tenant>)
    requires a != b && a in signals && b in signals
    requires signals[a].cluster == Some(c) == signals[b].cluster && signals[a].tenant == tenant == signals[b].tenant
    ensures |Members(signals, c, tenant)| >= 2
  {
    var members := Members(signals, c, tenant);
    assert members == {a, b} + (members - {a, b});
  }

  lemma PlacesAfterJoin(t: Tables, u: Tables, id: SignalId, m: Match, tenant: Option<Tenant>)
    requires MembersInPlace(t) && id in t.signals && m.signal in t.signals && m.cluster == t.signals[m.signal].cluster
    requires t.signals[id].tenant == tenant == t.signals[m.signal].tenant && Embedded(t.embeddings, id)
    requires Embedded(t.embeddings, m.signal)
    requires u.embeddings == t.embeddings && OnlyClusters(t.signals, u.signals)
    requires u.signals[id].cluster == Some(ClusterFor(t, m)) == u.signals[m.signal].cluster
    requires forall x :: x in t.signals && x != id && x != m.signal ==> u.signals[x] == t.signals[x]
    requires u.clusters == if m.cluster.Some? then t.clusters else t.clusters + [Cluster(tenant, m.signal, 2, EMERGING)]
    ensures MembersInPlace(u)
  {
    hide Embedded;
  }

  lemma JoinKeepsCounts(t: Tables, id: SignalId, tenant: Option<Tenant>, m: Match)
    requires ClusterInv(t)
    requires id in t.signals && t.signals[id].tenant == tenant && t.signals[id].cluster.None?
    requires Embedded(t.embeddings, id)
    requires m.signal in t.signals && m.signal != id && m.cluster == t.signals[m.signal].cluster
    requires t.signals[m.signal].tenant == tenant && Embedded(t.embeddings, m.signal)
    ensures ClusterInv(Recount(JoinCluster(t, id, m, tenant), ClusterFor(t, m), tenant))
  {
    var joined, c := JoinCluster(t, id, m, tenant), ClusterFor(t, m);
    JoinEffect(t, id, m, tenant);
    JoinedMembers(t, id, tenant, m);
    forall k | 0 <= k < |joined.clusters| && k != c ensures CountRight(joined, k) {
      assert CountRight(t, k) && t.clusters[k] == joined.clusters[k];
      MembersUnmoved(t.signals, joined.signals, k, joined.clusters[k].tenant);
    }
    RecountRestores(joined, c, tenant);
  }

  lemma NotYetClustered(t: Tables, id: SignalId)
    requires ClusterInv(t) && id in t.signals && !Embedded(t.embeddings, id)
    ensures t.signals[id].cluster.None?
  {
  }

  /** The canonical pointer is untouched if no match is within the limit; else it points at the first
      match, and no match is nearer. */
  predicate PointsAtNearest(before: Option<SignalId>, after: Option<SignalId>, matches: seq<Match>, dedup: real) {
    if matches == [] || matches[0].distance > dedup then
      after == before && forall i :: 0 <= i < |matches| ==> matches[i].distance > dedup
    else
      after == Some(matches[0].signal) && forall i :: 0 <= i < |matches| ==> matches[0].distance <= matches[i].distance
  }

  /** `matches[i]` is a nearest match of the signal's own tenant, and the first of them. */
  predicate IsNearestOwn(matches: seq<Match>, i: nat, threshold: real, tenant: Option<Tenant>) {
    && i < |matches| && matches[i].tenant == tenant && matches[i].distance <= threshold
    && (forall j :: 0 <= j < i ==> matches[j].tenant != tenant)
    && forall j :: 0 <= j < |matches| && matches[j].tenant == tenant ==> matches[i].distance <= matches[j].distance
  }

  /** Signal and match `m` end in cluster `c`: the match's own, or a new one around it; no other signal and
      no other cluster row changes. */
  predicate Joined(t: Tables, u: Tables, id: SignalId, tenant: Option<Tenant>, m: Match, c: nat) {
    && id in u.signals && u.signals[id].cluster == Some(c)
    && m.signal in t.signals && m.signal in u.signals
    && u.signals[m.signal] == t.signals[m.signal].(cluster := Some(c))
    && (forall x :: x in t.signals && x != id && x != m.signal ==> x in u.signals && u.signals[x] == t.signals[x])
    && c < |u.clusters| && u.clusters[c].tenant == tenant
    && (forall k :: 0 <= k < |t.clusters| && k != c ==> k < |u.clusters| && u.clusters[k] == t.clusters[k])
    && |u.clusters| == (if m.cluster.Some? then |t.clusters| else |t.clusters| + 1)
    && c == (if m.cluster.Some? then m.cluster.value else |t.clusters|)
    && u.clusters[c].representative ==
       if c < |t.clusters| then t.clusters[c].representative else m.signal
  }

  /** What the transaction leaves behind. */
  ghost predicate EmbedOutcome(t: Tables, u: Tables, id: SignalId, tenant: Option<Tenant>, matches: seq<Match>,
                               dedup: real, threshold: real) {
    && u.embeddings == t.embeddings + [Embedding(id, tenant)]
    && u.signals.Keys == t.signals.Keys && id in t.signals
    && u.signals[id] == t.signals[id].(canonical := u.signals[id].canonical, cluster := u.signals[id].cluster)
    && PointsAtNearest(t.signals[id].canonical, u.signals[id].canonical, matches, dedup)
    && if forall j :: 0 <= j < |matches| ==> matches[j].tenant != tenant
       then u.clusters == t.clusters && u.signals[id].cluster == None &&
            forall x :: x in t.signals && x != id ==> u.signals[x] == t.signals[x]
       else exists i: nat, c: nat ::
              IsNearestOwn(matches, i, threshold, tenant) && Joined(t, u, id, tenant, matches[i], c)
  }

  lemma FoundIsNearest(t: Tables, id: SignalId, tenant: Option<Tenant>, matches: seq<Match>, dedup: real,
                       threshold: real, limit: nat)
    requires Ready(t, id, tenant, matches, threshold, limit)
    ensures FirstWithin(matches, dedup) ==
            if matches != [] && matches[0].distance <= dedup then Some(matches[0]) else None
    ensures var m := FirstRelated(matches, threshold, tenant);
            if m.None? then forall j :: 0 <= j < |matches| ==> matches[j].tenant != tenant
            else exists i: nat :: IsNearestOwn(matches, i, threshold, tenant) && m.value == matches[i]
  {
    hide FirstWithin, FirstRelated;
    var m := FirstRelated(matches, threshold, tenant);
    if m.Some? {
      var i :| 0 <= i < |matches| && m.value == matches[i] && Related(matches[i], threshold, tenant) &&
               forall j :: 0 <= j < i ==> !Related(matches[j], threshold, tenant);
      assert IsNearestOwn(matches, i, threshold, tenant);
    }
  }

  lemma MarkingEffect(t: Tables, id: SignalId, tenant: Option<Tenant>, matches: seq<Match>, dedup: real,
                      threshold: real, limit: nat)
    requires Ready(t, id, tenant, matches, threshold, limit)
    ensures var u :=
      MarkDuplicate(t.(embeddings := t.embeddings + [Embedding(id, tenant)]), id, tenant, matches, dedup);
            && u == t.(embeddings := t.embeddings + [Embedding(id, tenant)], signals := u.signals)
            && u.signals.Keys == t.signals.Keys && id in t.signals
            && u.signals[id] == t.signals[id].(canonical := u.signals[id].canonical)
            && (forall x :: x in t.signals && x != id ==> u.signals[x] == t.signals[x])
            && PointsAtNearest(t.signals[id].canonical, u.signals[id].canonical, matches, dedup)
  {
    FoundIsNearest(t, id, tenant, matches, dedup, threshold, limit);
    hide FirstWithin, Embedded;
  }

  lemma EmbedUnrelated(t: Tables, id: SignalId, tenant: Option<Tenant>, matches: seq<Match>, dedup: real,
                       threshold: real, limit: nat)
    requires ClusterInv(t) && Ready(t, id, tenant, matches, threshold, limit)
    requires FirstRelated(matches, threshold, tenant).None?
    ensures var u := Embed(t, id, tenant, matches, dedup, threshold);
            EmbedOutcome(t, u, id, tenant, matches, dedup, threshold)
  {
    NotYetClustered(t, id);
    FoundIsNearest(t, id, tenant, matches, dedup, threshold, limit);
    MarkingEffect(t, id, tenant, matches, dedup, threshold, limit);
    hide ClusterInv, Ready, PointsAtNearest, IsNearestOwn, FirstRelated, MarkDuplicate, Joined;
  }

  lemma EmbedRelated(t: Tables, id: SignalId, tenant: Option<Tenant>, matches: seq<Match>, dedup: real,
                     threshold: real, limit: nat, i: nat)
    requires ClusterInv(t) && Ready(t, id, tenant, matches, threshold, limit)
    requires IsNearestOwn(matches, i, threshold, tenant) && FirstRelated(matches, threshold, tenant) == Some(matches[i])
    ensures var u := Embed(t, id, tenant, matches, dedup, threshold);
            EmbedOutcome(t, u, id, tenant, matches, dedup, threshold)
  {
    var marked := MarkDuplicate(t.(embeddings := t.embeddings + [Embedding(id, tenant)]), id, tenant, matches, dedup);
    MarkingEffect(t, id, tenant, matches, dedup, threshold, limit);
    MatchIsOwn(t, id, tenant, matches, threshold, limit, matches[i]);
    MatchClusterExists(t, matches[i]);
    assert t.signals[id].tenant == tenant && matches[i].tenant == tenant;
    hide ClusterInv, Ready, PointsAtNearest, IsNearestOwn, FirstRelated, MarkDuplicate, JoinCluster, Recount, Joined;
    JoinedAfter(t, marked, id, tenant, matches[i]);
    var u := Embed(t, id, tenant, matches, dedup, threshold);
    assert Joined(t, u, id, tenant, matches[i], ClusterFor(marked, matches[i]));
  }

  /** The whole transaction, from the matches alone: the row points at a nearest duplicate within the limit,
      and it shares the cluster of, or opens one around, its nearest match of the same tenant. */
  lemma EmbedEffect(t: Tables, id: SignalId, tenant: Option<Tenant>, matches: seq<Match>, dedup: real, threshold: real,
                    limit: nat)
    requires ClusterInv(t) && Ready(t, id, tenant, matches, threshold, limit)
    ensures var u := Embed(t, id, tenant, matches, dedup, threshold);
            EmbedOutcome(t, u, id, tenant, matches, dedup, threshold)
  {
    FoundIsNearest(t, id, tenant, matches, dedup, threshold, limit);
    hide ClusterInv, Ready, EmbedOutcome, IsNearestOwn, FirstRelated, Embed;
    if FirstRelated(matches, threshold, tenant).None? {
      EmbedUnrelated(t, id, tenant, matches, dedup, threshold, limit);
    } else {
      var i: nat :| IsNearestOwn(matches, i, threshold, tenant) &&
                    FirstRelated(matches, threshold, tenant).value == matches[i];
      EmbedRelated(t, id, tenant, matches, dedup, threshold, limit, i);
    }
  }

  lemma AssignedIsStored(t: Tables, id: SignalId, tenant: Option<Tenant>, matches: seq<Match>, threshold: real)
    requires id in t.signals && t.signals[id].tenant == tenant && t.signals[id].cluster.None?
    ensures var (u, c) := AssignCluster(t, id, tenant, matches, threshold);
      id in u.signals && u.signals[id].cluster == c
  {
  }

  lemma JoinedAfter(t: Tables, marked: Tables, id: SignalId, tenant: Option<Tenant>, m: Match)
    requires id in t.signals && t.signals[id].tenant == tenant && m.signal in t.signals
    requires t.signals[m.signal].tenant == tenant
    requires m.signal != id && m.cluster == t.signals[m.signal].cluster
    requires m.cluster.Some? ==> m.cluster.value < |t.clusters| && t.clusters[m.cluster.value].tenant == tenant
    requires marked.clusters == t.clusters && marked.signals.Keys == t.signals.Keys
    requires marked.signals[id].tenant == tenant &&
             forall x :: x in t.signals && x != id ==> marked.signals[x] == t.signals[x]
    ensures var c := ClusterFor(marked, m);
            var u := Recount(JoinCluster(marked, id, m, tenant), c, tenant);
            && Joined(t, u, id, tenant, m, c) && u.embeddings == marked.embeddings && u.signals.Keys == t.signals.Keys
            && u.signals[id] == marked.signals[id].(cluster := u.signals[id].cluster)
  {
    JoinEffect(marked, id, m, tenant);
    RecountEffect(JoinCluster(marked, id, m, tenant), ClusterFor(marked, m), tenant);
    hide Recount, JoinCluster;
  }

  lemma MatchClusterExists(t: Tables, m: Match)
    requires ClusterInv(t) && m.signal in t.signals && m.cluster == t.signals[m.signal].cluster
    ensures m.cluster.Some? ==> m.cluster.value < |t.clusters| &&
                                t.clusters[m.cluster.value].tenant == t.signals[m.signal].tenant
  {
    hide Embedded;
  }

  lemma RecountEffect(t: Tables, c: nat, tenant: Option<Tenant>)
    requires c < |t.clusters|
    ensures var u := Recount(t, c, tenant);
            && u == t.(clusters := u.clusters) && |u.clusters| == |t.clusters|
            && (forall k :: 0 <= k < |t.clusters| && k != c ==> u.clusters[k] == t.clusters[k])
            && u.clusters[c] == t.clusters[c].(count := u.clusters[c].count, status := u.clusters[c].status)
  {
  }

  lemma MatchIsOwn(t: Tables, id: SignalId, tenant: Option<Tenant>, matches: seq<Match>, threshold: real, limit: nat,
                   m: Match)
    requires ClusterInv(t) && Ready(t, id, tenant, matches, threshold, limit) && m in matches && m.tenant == tenant
    ensures m.signal != id && m.signal in t.signals && t.signals[m.signal].tenant == tenant
    ensures m.cluster == t.signals[m.signal].cluster
    ensures Embedded(t.embeddings, m.signal)
  {
    assert Embedding(m.signal, m.tenant) in t.embeddings;
    var i :| 0 <= i < |t.embeddings| && t.embeddings[i] == Embedding(m.signal, m.tenant);
  }

  // ---------------------------------------------------------------- conservation

  function SumCounts(clusters: seq<Cluster>): nat {
    if clusters == [] then 0 else SumCounts(clusters[..|clusters| - 1]) + clusters[|clusters| - 1].count
  }

  function ClusteredBelow(t: Tables, n: nat): set<SignalId> {
    set x | x in t.signals && t.signals[x].cluster.Some? && t.signals[x].cluster.value < n
  }

  lemma {:induction false} CountsUpTo(t: Tables, n: nat)
    requires ClusterInv(t) && n <= |t.clusters|
    ensures SumCounts(t.clusters[..n]) == |ClusteredBelow(t, n)|
  {
    if n == 0 {
      assert ClusteredBelow(t, 0) == {};
    } else {
      CountsUpTo(t, n - 1);
      assert t.clusters[..n][..n - 1] == t.clusters[..n - 1];
      var members := Members(t.signals, n - 1, t.clusters[n - 1].tenant);
      SplitBelow(t, n);
      assert CountRight(t, n - 1);
      assert |ClusteredBelow(t, n - 1) + members| == |ClusteredBelow(t, n - 1)| + |members|;
    }
  }

  lemma SplitBelow(t: Tables, n: nat)
    requires ClusterInv(t) && 0 < n <= |t.clusters|
    ensures var members := Members(t.signals, n - 1, t.clusters[n - 1].tenant);
            ClusteredBelow(t, n) == ClusteredBelow(t, n - 1) + members && ClusteredBelow(t, n - 1) !! members
  {
  }

  /** No signal is counted twice or missed: the counts add up to the clustered signals. */
  lemma CountsAreConserved(t: Tables)
    requires ClusterInv(t)
    ensures SumCounts(t.clusters) == |set x | x in t.signals && t.signals[x].cluster.Some?|
  {
    CountsUpTo(t, |t.clusters|);
    assert t.clusters[..|t.clusters|] == t.clusters;
    assert ClusteredBelow(t, |t.clusters|) == set x | x in t.signals && t.signals[x].cluster.Some?;
  }

  // ---------------------------------------------------------------- runs

  datatype Step =
    | Arrive(id: SignalId, signal: Signal)
    | EmbedSignal(id: SignalId, matches: seq<Match>)

  datatype Settings = Settings(dedup: real, threshold: real, limit: nat)

  ghost predicate Enabled(t: Tables, step: Step, cfg: Settings) {
    match step
    case Arrive(id, signal) => id !in t.signals && signal.cluster.None? && signal.canonical.None?
    case EmbedSignal(id, matches) =>
      id in t.signals && Ready(t, id, t.signals[id].tenant, matches, cfg.threshold, cfg.limit)
  }

  function Apply(t: Tables, step: Step, cfg: Settings): Tables {
    match step
    case Arrive(id, signal) => t.(signals := t.signals[id := signal])
    case EmbedSignal(id, matches) =>
      if id in t.signals then Embed(t, id, t.signals[id].tenant, matches, cfg.dedup, cfg.threshold) else t
  }

  ghost predicate CanRun(t: Tables, steps: seq<Step>, cfg: Settings)
    decreases |steps|
  {
    steps == [] || (Enabled(t, steps[0], cfg) && CanRun(Apply(t, steps[0], cfg), steps[1..], cfg))
  }

  ghost function After(t: Tables, steps: seq<Step>, cfg: Settings): Tables
    decreases |steps|
  {
    if steps == [] then t else After(Apply(t, steps[0], cfg), steps[1..], cfg)
  }

  lemma ArriveKeeps(t: Tables, id: SignalId, signal: Signal)
    requires ClusterInv(t) && CanonicalInv(t) && id !in t.signals && signal.cluster.None? && signal.canonical.None?
    ensures var u := t.(signals := t.signals[id := signal]); ClusterInv(u) && CanonicalInv(u)
  {
    hide Embedded, Rank;
    var u := t.(signals := t.signals[id := signal]);
    forall c | 0 <= c < |u.clusters| ensures CountRight(u, c) {
      assert CountRight(t, c);
      NewcomerIsNoMember(t.signals, id, signal, c, t.clusters[c].tenant);
    }
  }

  lemma NewcomerIsNoMember(signals: map<SignalId, Signal>, id: SignalId, signal: Signal, c: nat, tenant: Option<Tenant>)
    requires id !in signals && signal.cluster.None?
    ensures Members(signals[id := signal], c, tenant) == Members(signals, c, tenant)
  {
  }

  lemma {:induction false} ClustersAreSound(t: Tables, steps: seq<Step>, cfg: Settings)
    requires ClusterInv(t) && CanonicalInv(t) && CanRun(t, steps, cfg)
    ensures ClusterInv(After(t, steps, cfg)) && CanonicalInv(After(t, steps, cfg))
    decreases |steps|
  {
    if steps == [] {
    } else {
      match steps[0]
      case Arrive(id, signal) => ArriveKeeps(t, id, signal);
      case EmbedSignal(id, matches) =>
        ClusterInvStep(t, id, t.signals[id].tenant, matches, cfg.dedup, cfg.threshold, cfg.limit);
        CanonicalInvStep(t, id, t.signals[id].tenant, matches, cfg.dedup, cfg.threshold, cfg.limit);
    }
    if steps != [] {
      ClustersAreSound(Apply(t, steps[0], cfg), steps[1..], cfg);
    }
  }
}
