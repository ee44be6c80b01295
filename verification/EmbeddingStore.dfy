/** The embedding worker's transaction as a sequence of row updates. */
module EmbeddingStore {
  import opened Seqs
  import opened Signals
  import opened Clusters

  /** `next((match for match in matches if match.distance <= limit), None)`. */
  method FindDuplicate(matches: seq<Match>, limit: real) returns (m: Option<Match>)
    ensures m == FirstWithin(matches, limit)
    ensures m.None? <==> forall i :: 0 <= i < |matches| ==> matches[i].distance > limit
    ensures m.Some? ==> exists i :: 0 <= i < |matches| && m.value == matches[i] && matches[i].distance <= limit &&
                                    forall j :: 0 <= j < i ==> matches[j].distance > limit
  {
    for i := 0 to |matches|
      invariant forall j :: 0 <= j < i ==> matches[j].distance > limit
      invariant FirstWithin(matches, limit) == FirstWithin(matches[i..], limit)
    {
      if matches[i].distance <= limit {
        return Some(matches[i]);
      }
    }
    m := None;
  }

  method FindRelated(matches: seq<Match>, limit: real, tenant: Option<Tenant>) returns (m: Option<Match>)
    ensures m == FirstRelated(matches, limit, tenant)
    ensures m.None? <==> forall i :: 0 <= i < |matches| ==> matches[i].distance > limit || matches[i].tenant != tenant
    ensures m.Some? ==> exists i :: 0 <= i < |matches| && m.value == matches[i] &&
                                    matches[i].distance <= limit && matches[i].tenant == tenant &&
                                    forall j :: 0 <= j < i ==>
                                      matches[j].distance > limit || matches[j].tenant != tenant
  {
    for i := 0 to |matches|
      invariant forall j :: 0 <= j < i ==> !Related(matches[j], limit, tenant)
      invariant FirstRelated(matches, limit, tenant) == FirstRelated(matches[i..], limit, tenant)
    {
      if matches[i].distance <= limit && matches[i].tenant == tenant {
        return Some(matches[i]);
      }
    }
    m := None;
  }

  class Store {
    var signals: map<SignalId, Signal>
    var embeddings: seq<Embedding>
    var clusters: seq<Cluster>

    function World(): Tables
      reads this
    {
      Tables(signals, embeddings, clusters)
    }

    ghost predicate Valid()
      reads this
    {
      ClusterInv(World()) && CanonicalInv(World())
    }

    /** `_mark_semantic_duplicate`. */
    method MarkSemanticDuplicate(id: SignalId, tenant: Option<Tenant>, canonical: SignalId)
      modifies this`signals
      ensures signals == SetCanonical(old(signals), id, tenant, canonical)
    {
      if id in signals && signals[id].tenant == tenant {
        signals := signals[id := signals[id].(canonical := Some(canonical))];
      }
    }

    /** `_set_signal_cluster`. */
    method SetSignalCluster(id: SignalId, tenant: Option<Tenant>, cluster: nat)
      modifies this`signals
      ensures signals == SetCluster(old(signals), id, tenant, cluster)
    {
      if id in signals && signals[id].tenant == tenant {
        signals := signals[id := signals[id].(cluster := Some(cluster))];
      }
    }

    /** `_assign_cluster`. */
    method Assign(id: SignalId, tenant: Option<Tenant>, matches: seq<Match>, threshold: real)
      returns (cluster: Option<nat>)
      modifies this
      ensures (World(), cluster) == AssignCluster(old(World()), id, tenant, matches, threshold)
    {
      var related := FindRelated(matches, threshold, tenant);
      if related.None? {
        return None;
      }
      var c;
      if related.value.cluster.Some? {
        c := related.value.cluster.value;
      } else {
        c := |clusters|;
        clusters := clusters + [Cluster(tenant, related.value.signal, 2, EMERGING)];
        SetSignalCluster(related.value.signal, tenant, c);
      }
      SetSignalCluster(id, tenant, c);
      if c < |clusters| && clusters[c].tenant == tenant {
        var count := |Members(signals, c, tenant)|;
        clusters := clusters[c := clusters[c].(count := count, status := if count >= 3 then ACTIVE else EMERGING)];
      }
      cluster := Some(c);
    }

    /** The search for a duplicate and its mark, between the similarity query and `_assign_cluster`. */
    method MarkNearest(id: SignalId, tenant: Option<Tenant>, matches: seq<Match>, dedup: real)
      returns (found: Option<Match>)
      modifies this`signals
      ensures World() == MarkDuplicate(old(World()), id, tenant, matches, dedup)
      ensures found == FirstWithin(matches, dedup)
    {
      found := FindDuplicate(matches, dedup);
      if found.Some? {
        MarkSemanticDuplicate(id, tenant, found.value.signal);
      }
    }

    /** `run_embedding` from the stored vector to the commit: every count, status and pointer is
        right again, the row points at its nearest duplicate and joins its nearest own match, and the
        reported duplicate is the one it points at. */
    method RunEmbedding(id: SignalId, tenant: Option<Tenant>, matches: seq<Match>, cfg: Settings)
      returns (duplicateOf: Option<SignalId>, cluster: Option<nat>)
      requires Valid() && Ready(World(), id, tenant, matches, cfg.threshold, cfg.limit)
      modifies this
      ensures Valid()
      ensures World() == Embed(old(World()), id, tenant, matches, cfg.dedup, cfg.threshold)
      ensures EmbedOutcome(old(World()), World(), id, tenant, matches, cfg.dedup, cfg.threshold)
      ensures id in signals && cluster == signals[id].cluster
      ensures duplicateOf == if matches != [] && matches[0].distance <= cfg.dedup then Some(matches[0].signal) else None
    {
      ClusterInvStep(World(), id, tenant, matches, cfg.dedup, cfg.threshold, cfg.limit);
      CanonicalInvStep(World(), id, tenant, matches, cfg.dedup, cfg.threshold, cfg.limit);
      EmbedEffect(World(), id, tenant, matches, cfg.dedup, cfg.threshold, cfg.limit);
      FoundIsNearest(World(), id, tenant, matches, cfg.dedup, cfg.threshold, cfg.limit);
      NotYetClustered(World(), id);
      assert signals[id].tenant == tenant;
      hide ClusterInv, CanonicalInv, Ready, AssignCluster, FirstWithin, IsNearestOwn, EmbedOutcome;
      embeddings := embeddings + [Embedding(id, tenant)];
      var found := MarkNearest(id, tenant, matches, cfg.dedup);
      duplicateOf := if found.Some? then Some(found.value.signal) else None;
      AssignedIsStored(World(), id, tenant, matches, cfg.threshold);
      cluster := Assign(id, tenant, matches, cfg.threshold);
    }
  }
}
