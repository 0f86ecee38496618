/**
 The repository as an object over its tables. Every method is one transaction: it reads rows, decides, and
 updates tables in place. Its contract ties the tables after it and its answer to the transaction of module
 `Repository`, and says what `RepositoryIntegrity` proves of that transaction.
 */
module SqliteRepository {
  import opened Prelude
  import R = Repository
  import I = RepositoryIntegrity

  /** No reference dangles, and each node has at most one unrevoked certificate, a revoked or removed one none. */
  ghost predicate SoundTables(db: R.Db) {
    I.Referential(db) && I.CertificatesSound(db)
  }

  lemma SoundAfter(db: R.Db, op: R.Op)
    ensures SoundTables(db) && I.OwnerWritten(db, op) ==> (SoundTables(R.Apply(db, op)) <==>
        I.RegistersUsableNodes(db, op))
    ensures I.HasOwner(db) && I.LeavesAnOwner(db, op) ==> I.HasOwner(R.Apply(db, op))
  {
    if I.Referential(db) && I.CertificatesSound(db) {
      I.StepKeepsReferences(db, op);
      I.StepKeepsCertificates(db, op);
    }
    if I.HasOwner(db) {
      I.StepKeepsOwner(db, op);
    }
  }

  lemma StillSound(db: R.Db, op: R.Op, after: R.Db)
    requires after == R.Apply(db, op) && I.OwnerWritten(db, op) && I.RegistersUsableNodes(db, op)
    ensures SoundTables(db) ==> SoundTables(after)
  {
    SoundAfter(db, op);
  }

  /**
   What its callers get, in any order and interleaving of these transactions: `Sound()`, once true, stays true
   (registering the local node keeps it exactly when the node is not registered as revoked beside a certificate), and an
   installation that has an owner keeps one. So none of them leaves a session, a binding or a certificate that refers to
   a row which is gone.
   */
  class Sqlite {
    var providers: map<Id, R.ProviderRow>
    var bindings: map<Id, R.BindingRow>
    var sessions: map<Id, Versioned<R.Session>>
    var grants: map<Id, R.Grant>
    var channels: map<Id, Versioned<R.Channel>>
    var users: map<Id, Versioned<R.Identity>>
    var nodes: map<Id, Versioned<R.ClusterNode>>
    var certificates: map<Id, R.Certificate>

    function Tables(): R.Db
      reads this
    {
      R.Db(providers, bindings, sessions, grants, channels, users, nodes, certificates)
    }

    ghost predicate Sound()
      reads this
    {
      SoundTables(Tables())
    }

    constructor ()
      ensures Tables() == R.EmptyDb && Sound()
    {
      providers, bindings, sessions, grants := map[], map[], map[], map[];
      channels, users, nodes, certificates := map[], map[], map[], map[];
    }

    method CompareAndSetProvider(id: Id, provider: R.Provider, expected: nat) returns (r: R.Result<R.Provider>)
      modifies `providers
      ensures (Tables(), r) == R.CompareAndSetProvider(old(Tables()), id, provider, expected)
      ensures old(Sound()) ==> Sound()
    {
      SoundAfter(Tables(), R.OnCatalog(R.SetsProvider(id, provider, expected)));
      if id in providers && providers[id].revision == expected && !providers[id].deletionPending {
        providers := providers[id := R.ProviderRow(provider, providers[id].revision + 1, false)];
        return R.Applied(Versioned(provider, expected + 1));
      }
      if id !in providers {
        return R.Refused(R.NotFound);
      }
      if providers[id].revision != expected {
        return R.Refused(R.RevisionConflict);
      }
      return R.Refused(R.InvalidState);
    }

    /** Whether some session or binding refers to the provider. */
    method ProviderDependencies(id: Id) returns (found: bool)
      ensures found == R.HasDependents(Tables(), id)
    {
      found := (exists s :: s in sessions && R.UsesProvider(sessions[s].value, id))
               || (exists b :: b in bindings && bindings[b].value.providerId == id);
    }

    method BeginProviderDeletion(id: Id) returns (r: R.Result<R.Provider>)
      modifies `providers
      ensures (Tables(), r) == R.BeginProviderDeletion(old(Tables()), id)
      ensures old(Sound()) ==> Sound()
    {
      SoundAfter(Tables(), R.OnCatalog(R.BeginsProviderDeletion(id)));
      if id !in providers {
        return R.Refused(R.NotFound);
      }
      var current := providers[id];
      if current.deletionPending {
        return R.Applied(Versioned(current.value, current.revision));
      }
      var dependent := ProviderDependencies(id);
      if dependent {
        return R.Refused(R.DependencyConflict);
      }
      providers := providers[id := current.(deletionPending := true, revision := current.revision + 1)];
      return R.Applied(Versioned(current.value, current.revision + 1));
    }

    method FinalizeProviderDeletion(id: Id, expected: nat) returns (r: R.Result<R.Provider>)
      modifies `providers
      ensures (Tables(), r) == R.FinalizeProviderDeletion(old(Tables()), id, expected)
      ensures old(Sound()) ==> Sound()
    {
      SoundAfter(Tables(), R.OnCatalog(R.FinalizesProviderDeletion(id, expected)));
      if id !in providers {
        return R.Refused(R.NotFound);
      }
      var current := providers[id];
      if current.revision != expected {
        return R.Refused(R.RevisionConflict);
      }
      if !current.deletionPending {
        return R.Refused(R.InvalidState);
      }
      var dependent := ProviderDependencies(id);
      if dependent {
        return R.Refused(R.DependencyConflict);
      }
      providers := providers - {id};
      return R.Applied(Versioned(current.value, current.revision));
    }

    method CreateProviderBinding(provider: R.Provider, id: Id, binding: R.Binding, expected: Option<nat>)
        returns (r: R.BindingResult)
      modifies `providers, `bindings
      ensures (Tables(), r) == R.CreateProviderBinding(old(Tables()), provider, id, binding, expected)
      ensures old(Sound()) ==> Sound()
    {
      var existing := Get(providers, binding.providerId);
      var known := if existing.Some? then Some(existing.value.value) else None;
      if id in bindings {
        return R.BindingRefused(if bindings[id].deletionPending then R.BindingDeleting
            else R.BindingConflict, known, Some(bindings[id].value));
      }
      if !(binding.nodeId in nodes && !nodes[binding.nodeId].value.state.Revoked?
        && R.SourceWorker in nodes[binding.nodeId].value.roles) {
        return R.BindingRefused(R.NodeUnavailable, None, None);
      }
      var stored := provider;
      if expected.None? {
        if existing.Some? {
          return R.BindingRefused(if existing.value.deletionPending then R.ProviderDeleting
              else R.ProviderConflict, known, None);
        }
        providers := providers[binding.providerId := R.ProviderRow(provider, 1, false)];
      } else {
        if existing.None? {
          return R.BindingRefused(R.ProviderNotFound, None, None);
        }
        if existing.value.deletionPending {
          return R.BindingRefused(R.ProviderDeleting, known, None);
        }
        if existing.value.revision != expected.value {
          return R.BindingRefused(R.ProviderRevisionConflict, known, None);
        }
        if !R.SameServer(existing.value.value, provider) {
          return R.BindingRefused(R.ProviderConflict, known, None);
        }
        stored := R.MergedMetadata(existing.value.value, provider);
        providers := providers[binding.providerId := R.ProviderRow(stored, existing.value.revision + 1, false)];
      }
      bindings := bindings[id := R.BindingRow(binding, 1, false)];
      StillSound(old(Tables()), R.OnCatalog(R.CreatesBinding(provider, id, binding, expected)), Tables());
      return R.BindingCreated(stored, Versioned(binding, 1));
    }

    method BeginBindingDeletion(id: Id) returns (r: R.Result<R.Binding>)
      modifies `bindings
      ensures (Tables(), r) == R.BeginBindingDeletion(old(Tables()), id)
      ensures old(Sound()) ==> Sound()
    {
      SoundAfter(Tables(), R.OnCatalog(R.BeginsBindingDeletion(id)));
      if id !in bindings {
        return R.Refused(R.NotFound);
      }
      var current := bindings[id];
      if current.deletionPending {
        return R.Applied(Versioned(current.value, current.revision));
      }
      var pending := current.value.(state := R.Withdrawn);
      bindings := bindings[id := R.BindingRow(pending, current.revision + 1, true)];
      return R.Applied(Versioned(pending, current.revision + 1));
    }

    method CompareAndSetUserPreservingOwner(id: Id, identity: R.Identity, expected: nat)
        returns (r: R.Result<R.Identity>)
      modifies `users
      ensures (Tables(), r) == R.CompareAndSetUserPreservingOwner(old(Tables()), id, identity, expected)
      ensures old(Sound()) ==> Sound()
      ensures old(I.HasOwner(Tables())) ==> I.HasOwner(Tables())
    {
      if id !in users {
        return R.Refused(R.NotFound);
      }
      if users[id].revision != expected {
        return R.Refused(R.RevisionConflict);
      }
      if R.Owner in users[id].value.roles && R.Owner !in identity.roles {
        var owners := set u | u in users && R.Owner in users[u].value.roles;
        assert owners == R.Owners(Tables());
        if |owners| <= 1 {
          return R.Refused(R.DependencyConflict);
        }
      }
      users := users[id := Versioned(identity, expected + 1)];
      assert Tables() == R.CompareAndSetUserPreservingOwner(old(Tables()), id, identity, expected).0;
      SoundAfter(old(Tables()), R.OnUser(R.SetsUserPreservingOwner(id, identity, expected)));
      return R.Applied(Versioned(identity, expected + 1));
    }

    method DeleteUserPreservingOwner(id: Id, expected: nat, lastSeenBefore: Option<Millis>)
        returns (r: R.Result<R.Identity>)
      modifies `users
      ensures (Tables(), r) == R.DeleteUserPreservingOwner(old(Tables()), id, expected, lastSeenBefore)
      ensures old(Sound()) ==> Sound()
      ensures old(I.HasOwner(Tables())) ==> I.HasOwner(Tables())
    {
      if id !in users {
        return R.Refused(R.NotFound);
      }
      var current := users[id];
      if current.revision != expected {
        return R.Refused(R.RevisionConflict);
      }
      if lastSeenBefore.Some? && current.value.lastSeenAt > lastSeenBefore.value {
        return R.Refused(R.InvalidState);
      }
      if R.Owner in current.value.roles {
        var owners := set u | u in users && R.Owner in users[u].value.roles;
        assert owners == R.Owners(Tables());
        if |owners| <= 1 {
          return R.Refused(R.DependencyConflict);
        }
      }
      if exists s :: s in sessions && sessions[s].value.ownerId == Some(id) {
        return R.Refused(R.DependencyConflict);
      }
      if exists c :: c in channels && channels[c].value.ownerId == Some(id) {
        return R.Refused(R.DependencyConflict);
      }
      users := users - {id};
      assert Tables() == R.DeleteUserPreservingOwner(old(Tables()), id, expected, lastSeenBefore).0;
      SoundAfter(old(Tables()), R.OnUser(R.DeletesUser(id, expected, lastSeenBefore)));
      return R.Applied(current);
    }

    method DeleteLiveChannel(id: Id, expected: nat) returns (r: R.Result<R.Channel>)
      modifies `channels
      ensures (Tables(), r) == R.DeleteChannel(old(Tables()), id, expected)
      ensures old(Sound()) ==> Sound()
    {
      SoundAfter(Tables(), R.OnChannel(R.DeletesChannel(id, expected)));
      if id !in channels {
        return R.Refused(R.NotFound);
      }
      var current := channels[id];
      if current.revision != expected {
        return R.Refused(R.RevisionConflict);
      }
      if !current.value.publisherState.PublisherOffline? {
        return R.Refused(R.InvalidState);
      }
      if exists s :: s in sessions && sessions[s].value.liveChannelId == Some(id) {
        return R.Refused(R.InvalidState);
      }
      channels := channels - {id};
      return R.Applied(current);
    }

    method EnsureLocalNode(id: Id, node: R.ClusterNode) returns (r: R.Result<R.ClusterNode>)
      modifies `nodes
      ensures (Tables(), r) == R.EnsureLocalNode(old(Tables()), id, node)
      ensures old(Sound()) ==> (Sound() <==> old(I.RegistersUsable(Tables(), R.EnsuresLocalNode(id, node))))
    {
      if id !in nodes {
        nodes := nodes[id := Versioned(node, 1)];
        return R.Applied(Versioned(node, 1));
      }
      var current := nodes[id];
      var ensured := node;
      if current.value.state.Draining? || current.value.state.Revoked? {
        ensured := ensured.(state := current.value.state);
      }
      ensured := ensured.(createdAt := current.value.createdAt);
      if node.certificateExpiresAt.None? {
        ensured := ensured.(certificateExpiresAt := current.value.certificateExpiresAt);
      }
      nodes := nodes[id := Versioned(ensured, current.revision + 1)];
      assert Tables() == R.EnsureLocalNode(old(Tables()), id, node).0;
      SoundAfter(old(Tables()), R.OnNode(R.EnsuresLocalNode(id, node)));
      return R.Applied(Versioned(ensured, current.revision + 1));
    }

    method RevokeNodeCertificates(nodeId: Id, at: Millis)
      modifies `certificates
      ensures certificates == R.CertificatesRevoked(old(certificates), nodeId, at)
    {
      certificates := map s | s in certificates ::
        if certificates[s].nodeId == nodeId && certificates[s].revokedAt.None?
          then certificates[s].(revokedAt := Some(at))
        else certificates[s];
    }

    /** Supersede first, insert second: the insert throws on a known serial number, and the transaction rolls back. */
    method RotateNodeCertificate(id: Id, expected: nat, serial: Id, certificate: R.Certificate, at: Millis)
        returns (r: R.Result<R.ClusterNode>)
      modifies `nodes, `certificates
      ensures (Tables(), r) == R.RotateCertificate(old(Tables()), id, expected, serial, certificate, at)
      ensures old(Sound()) ==> Sound()
    {
      if certificate.nodeId != id || certificate.revokedAt.Some? {
        return R.Thrown;
      }
      if id !in nodes {
        return R.Refused(R.NotFound);
      }
      var current := nodes[id];
      if current.revision != expected {
        return R.Refused(R.RevisionConflict);
      }
      if current.value.state.Revoked? {
        return R.Refused(R.InvalidState);
      }
      var nodesBefore, certificatesBefore := nodes, certificates;
      var node := current.value.(certificateExpiresAt := Some(certificate.expiresAt));
      nodes := nodes[id := Versioned(node, expected + 1)];
      RevokeNodeCertificates(id, at);
      if serial in certificates {
        nodes, certificates := nodesBefore, certificatesBefore;
        return R.Thrown;
      }
      certificates := certificates[serial := certificate];
      StillSound(old(Tables()), R.OnNode(R.RotatesCertificate(id, expected, serial, certificate, at)), Tables());
      return R.Applied(Versioned(node, expected + 1));
    }

    method RevokeNode(id: Id, expected: nat, at: Millis) returns (r: R.Result<R.ClusterNode>)
      modifies `nodes, `bindings, `certificates
      ensures (Tables(), r) == R.RevokeNode(old(Tables()), id, expected, at)
      ensures old(Sound()) ==> Sound()
    {
      if id !in nodes {
        return R.Refused(R.NotFound);
      }
      if nodes[id].revision != expected {
        return R.Refused(R.RevisionConflict);
      }
      var node := nodes[id].value.(state := R.Revoked);
      nodes := nodes[id := Versioned(node, expected + 1)];
      bindings := map b | b in bindings ::
        if bindings[b].value.nodeId == id
        then bindings[b].(value := bindings[b].value.(state := R.Withdrawn), revision := bindings[b].revision + 1)
        else bindings[b];
      RevokeNodeCertificates(id, at);
      StillSound(old(Tables()), R.OnNode(R.RevokesNode(id, expected, at)), Tables());
      return R.Applied(Versioned(node, expected + 1));
    }

    method RemoveNode(id: Id, expected: nat) returns (r: R.Result<R.ClusterNode>)
      modifies `nodes
      ensures (Tables(), r) == R.RemoveNode(old(Tables()), id, expected)
      ensures old(Sound()) ==> Sound()
    {
      SoundAfter(Tables(), R.OnNode(R.RemovesNode(id, expected)));
      if id !in nodes {
        return R.Refused(R.NotFound);
      }
      var current := nodes[id];
      if current.revision != expected {
        return R.Refused(R.RevisionConflict);
      }
      if !current.value.state.Revoked? {
        return R.Refused(R.InvalidState);
      }
      if exists b :: b in bindings && bindings[b].value.nodeId == id {
        return R.Refused(R.DependencyConflict);
      }
      nodes := nodes - {id};
      return R.Applied(current);
    }
  }
}
