/** Signals, tenants and similarity search, shared by clustering and evidence provenance. */
module Signals {
  import opened Seqs

  type SignalId = nat
  type Tenant = nat

  /** `tenant` is None for public intelligence. */
  datatype Signal = Signal(
    tenant: Option<Tenant>, scored: bool, createdAt: nat, corroborating: seq<SignalId>,
    sourceName: string, title: Option<string>, body: string, url: Option<string>, publishedAt: Option<string>,
    cluster: Option<nat>, canonical: Option<SignalId>)

  /** A row of `signal_embeddings`, in the order the rows were written. */
  datatype Embedding = Embedding(signal: SignalId, tenant: Option<Tenant>)
  datatype Match = Match(signal: SignalId, distance: real, tenant: Option<Tenant>, cluster: Option<nat>)

  /** The tenant filter every evidence query repeats: public rows, or rows of the same tenant. */
  predicate Visible(row: Option<Tenant>, tenant: Option<Tenant>) {
    row.None? || (tenant.Some? && row == tenant)
  }

  lemma VisibleIsTransitive(a: Option<Tenant>, b: Option<Tenant>, c: Option<Tenant>)
    requires Visible(a, b) && Visible(b, c)
    ensures Visible(a, c)
  {
  }

  ghost predicate EmbeddingInv(signals: map<SignalId, Signal>, embeddings: seq<Embedding>) {
    && (forall i, j :: 0 <= i < j < |embeddings| ==> embeddings[i].signal != embeddings[j].signal)
    && (forall i :: 0 <= i < |embeddings| ==>
          embeddings[i].signal in signals && embeddings[i].tenant == signals[embeddings[i].signal].tenant)
  }

  predicate Embedded(embeddings: seq<Embedding>, id: SignalId) {
    exists i :: 0 <= i < |embeddings| && embeddings[i].signal == id
  }

  /** Position of the embedding row: earlier rows were embedded earlier. */
  function Rank(embeddings: seq<Embedding>, id: SignalId): (i: nat)
    ensures i <= |embeddings|
    ensures Embedded(embeddings, id) ==> i < |embeddings| && embeddings[i].signal == id
    ensures forall j :: 0 <= j < i ==> embeddings[j].signal != id
  {
    if embeddings == [] || embeddings[0].signal == id then 0
    else
      assert Embedded(embeddings, id) ==> Embedded(embeddings[1..], id) by {
        if i :| 0 <= i < |embeddings| && embeddings[i].signal == id {
          assert embeddings[1..][i - 1].signal == id;
        }
      }
      1 + Rank(embeddings[1..], id)
  }

  /** What `find_similar_signals` may return for `id`: other embedded signals its tenant may read,
      nearest first, each once, strictly below the threshold. The approximate index may miss rows. */
  ghost predicate SearchResult(signals: map<SignalId, Signal>, embeddings: seq<Embedding>, id: SignalId,
                               tenant: Option<Tenant>, threshold: real, limit: nat, matches: seq<Match>) {
    && |matches| <= limit
    && (forall i, j :: 0 <= i < j < |matches| ==>
          matches[i].distance <= matches[j].distance && matches[i].signal != matches[j].signal)
    && (forall i :: 0 <= i < |matches| ==>
          var m := matches[i];
          m.signal != id && m.distance < threshold && m.signal in signals && m.cluster == signals[m.signal].cluster &&
          Embedding(m.signal, m.tenant) in embeddings && Visible(m.tenant, tenant))
  }
}
