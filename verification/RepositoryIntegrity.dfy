/**
 What the transactions of the repository keep, whatever callers interleave: references between tables,
 the certificate table, and the last owner. Each invariant is kept by a step if and only if that step
 satisfies a condition its caller can check, and the conditions of the steps of a run are enough for the run.
 */
module RepositoryIntegrity {
  import opened Prelude
  import opened Repository

  // ---------------------------------------------------------------- references between tables

  predicate ProviderLive(providers: map<Id, ProviderRow>, id: Id) {
    id in providers && !providers[id].deletionPending
  }

  ghost predicate SessionsHaveProviders(sessions: map<Id, Versioned<Session>>, providers: map<Id, ProviderRow>) {
    forall s :: s in sessions && sessions[s].value.kind.Vod? ==>
      sessions[s].value.source.Some? && ProviderLive(providers, sessions[s].value.source.value.providerId)
  }

  ghost predicate SessionsHaveChannels(sessions: map<Id, Versioned<Session>>, channels: map<Id, Versioned<Channel>>) {
    forall s :: s in sessions && sessions[s].value.kind.Live? ==>
      sessions[s].value.liveChannelId.Some? && sessions[s].value.liveChannelId.value in channels
  }

  ghost predicate BindingsHaveProviders(bindings: map<Id, BindingRow>, providers: map<Id, ProviderRow>) {
    forall b :: b in bindings ==> ProviderLive(providers, bindings[b].value.providerId)
  }

  ghost predicate BindingsHaveNodes(bindings: map<Id, BindingRow>, nodes: map<Id, Versioned<ClusterNode>>) {
    forall b :: b in bindings ==> bindings[b].value.nodeId in nodes
  }

  predicate OwnerKnown(owner: Option<Id>, users: map<Id, Versioned<Identity>>) {
    owner.Some? ==> owner.value in users
  }

  ghost predicate SessionsHaveOwners(sessions: map<Id, Versioned<Session>>, users: map<Id, Versioned<Identity>>) {
    forall s :: s in sessions ==> OwnerKnown(sessions[s].value.ownerId, users)
  }

  ghost predicate ChannelsHaveOwners(channels: map<Id, Versioned<Channel>>, users: map<Id, Versioned<Identity>>) {
    forall c :: c in channels ==> OwnerKnown(channels[c].value.ownerId, users)
  }

  ghost predicate Referential(db: Db) {
    && SessionsHaveProviders(db.sessions, db.providers)
    && SessionsHaveChannels(db.sessions, db.channels)
    && BindingsHaveProviders(db.bindings, db.providers)
    && BindingsHaveNodes(db.bindings, db.nodes)
    && SessionsHaveOwners(db.sessions, db.users)
    && ChannelsHaveOwners(db.channels, db.users)
  }

  /** Three writers do not check the owner they write; when their write takes effect, that owner must be known. */
  predicate SessionOwnerWritten(db: Db, op: SessionOp) {
    match op
    case SetsSession(id, session, expected) =>
      CompareAndSetSession(db, id, session, expected).1.Applied? ==> OwnerKnown(session.ownerId, db.users)
    case _ => true
  }

  predicate ChannelOwnerWritten(db: Db, op: ChannelOp) {
    match op
    case CreatesChannel(id, channel) =>
      CreateChannel(db, id, channel).1.Applied? ==> OwnerKnown(channel.ownerId, db.users)
    case SetsChannel(id, channel, expected) =>
      CompareAndSetChannel(db, id, channel, expected).1.Applied? ==> OwnerKnown(channel.ownerId, db.users)
    case _ => true
  }

  predicate OwnerWritten(db: Db, op: Op) {
    && (op.OnSession? ==> SessionOwnerWritten(db, op.session))
    && (op.OnChannel? ==> ChannelOwnerWritten(db, op.channel))
  }

  lemma DependentsRefuse(db: Db, id: Id)
    ensures !HasDependents(db, id) <==>
      && (forall s :: s in db.sessions && db.sessions[s].value.source.Some? ==>
        db.sessions[s].value.source.value.providerId != id)
      && (forall b :: b in db.bindings ==> db.bindings[b].value.providerId != id)
  {
    if !HasDependents(db, id) {
      forall s | s in db.sessions && db.sessions[s].value.source.Some?
        ensures db.sessions[s].value.source.value.providerId != id
      {
        assert !UsesProvider(db.sessions[s].value, id);
      }
    }
  }

  /** A binding is created over a live provider, or with its own. */
  lemma ProviderOfBinding(db: Db, provider: Provider, b: Id, binding: Binding, expected: Option<nat>, id: Id)
    requires id in db.providers
    ensures var after := CreateProviderBinding(db, provider, b, binding, expected).0;
            && id in after.providers && (ProviderLive(db.providers, id) ==> ProviderLive(after.providers, id))
            && (db.providers[id].deletionPending ==> after.providers[id] == db.providers[id])
  {
  }

  /** A provider that something depends on is neither marked nor removed. */
  lemma DependedOnStaysLive(db: Db, op: CatalogOp, id: Id)
    requires ProviderLive(db.providers, id) && HasDependents(db, id)
    ensures ProviderLive(ApplyCatalog(db, op).providers, id)
  {
    if op.CreatesBinding? {
      ProviderOfBinding(db, op.provider, op.id, op.binding, op.expectedProvider, id);
    }
  }

  lemma BindingCreation(db: Db, provider: Provider, id: Id, binding: Binding, expected: Option<nat>, b: Id)
    requires b in CreateProviderBinding(db, provider, id, binding, expected).0.bindings
    ensures var after := CreateProviderBinding(db, provider, id, binding, expected).0;
            || (b in db.bindings && after.bindings[b] == db.bindings[b])
            || (b !in db.bindings && after.bindings[b].value == binding
                && ProviderLive(after.providers, binding.providerId) && binding.nodeId in db.nodes)
  {
  }

  lemma BindingKept(db: Db, op: CatalogOp, b: Id)
    requires b in ApplyCatalog(db, op).bindings && !op.CreatesBinding?
    ensures b in db.bindings && ApplyCatalog(db, op).bindings[b].value.providerId == db.bindings[b].value.providerId
    ensures ApplyCatalog(db, op).bindings[b].value.nodeId == db.bindings[b].value.nodeId
  {
    var before, after := db.bindings, ApplyCatalog(db, op).bindings;
    match op
    case SetsBinding(id, binding, expected, _) =>
      assert after == before || (id in before && after == before[id := BindingRow(binding, expected + 1, false)]
                                 && before[id].value.(state := binding.state) == binding);
    case BeginsBindingDeletion(id) =>
      assert after == before || (id in before && after ==
        before[id := BindingRow(before[id].value.(state := Withdrawn), before[id].revision + 1, true)]);
    case FinalizesBindingDeletion(id, _) => assert after == before || after == before - {id};
    case _ =>
  }

  /** A binding keeps its provider and its node, and a new one has both. */
  lemma BindingOrigin(db: Db, op: CatalogOp, b: Id)
    requires b in ApplyCatalog(db, op).bindings
    ensures var after, binding := ApplyCatalog(db, op), ApplyCatalog(db, op).bindings[b].value;
            if b in db.bindings
            then binding.providerId == db.bindings[b].value.providerId && binding.nodeId == db.bindings[b].value.nodeId
            else ProviderLive(after.providers, binding.providerId) && binding.nodeId in db.nodes
  {
    if op.CreatesBinding? {
      BindingCreation(db, op.provider, op.id, op.binding, op.expectedProvider, b);
    } else {
      BindingKept(db, op, b);
    }
  }

  lemma CatalogKeepsSessionProviders(db: Db, op: CatalogOp)
    requires SessionsHaveProviders(db.sessions, db.providers)
    ensures SessionsHaveProviders(db.sessions, ApplyCatalog(db, op).providers)
  {
    forall s | s in db.sessions && db.sessions[s].value.kind.Vod?
      ensures ProviderLive(ApplyCatalog(db, op).providers, db.sessions[s].value.source.value.providerId)
    {
      var id := db.sessions[s].value.source.value.providerId;
      assert UsesProvider(db.sessions[s].value, id);
      DependedOnStaysLive(db, op, id);
    }
  }

  lemma CatalogKeepsBindingProviders(db: Db, op: CatalogOp)
    requires BindingsHaveProviders(db.bindings, db.providers)
    ensures BindingsHaveProviders(ApplyCatalog(db, op).bindings, ApplyCatalog(db, op).providers)
  {
    forall b | b in ApplyCatalog(db, op).bindings
      ensures ProviderLive(ApplyCatalog(db, op).providers, ApplyCatalog(db, op).bindings[b].value.providerId)
    {
      BindingOrigin(db, op, b);
      if b in db.bindings {
        DependedOnStaysLive(db, op, db.bindings[b].value.providerId);
      }
    }
  }

  lemma CatalogKeepsBindingNodes(db: Db, op: CatalogOp)
    requires BindingsHaveNodes(db.bindings, db.nodes)
    ensures BindingsHaveNodes(ApplyCatalog(db, op).bindings, db.nodes)
  {
    forall b | b in ApplyCatalog(db, op).bindings
      ensures ApplyCatalog(db, op).bindings[b].value.nodeId in db.nodes
    {
      BindingOrigin(db, op, b);
    }
  }

  /** What a session refers to exists. */
  predicate Refers(session: Session, providers: map<Id, ProviderRow>, channels: map<Id, Versioned<Channel>>) {
    && (session.kind.Vod? ==> session.source.Some? && ProviderLive(providers, session.source.value.providerId))
    && (session.kind.Live? ==> session.liveChannelId.Some? && session.liveChannelId.value in channels)
  }

  /** The parts of a session that refer to other rows. */
  predicate SameReferences(a: Session, b: Session) {
    && a.kind == b.kind && a.liveChannelId == b.liveChannelId && (a.source.Some? <==> b.source.Some?)
    && (a.source.Some? ==> a.source.value.providerId == b.source.value.providerId)
  }

  lemma SessionCreation(db: Db, id: Id, session: Session, hash: Id, grant: Grant, expected: Option<nat>, s: Id)
    requires s in CreateSession(db, id, session, hash, grant, expected).0.sessions
    ensures var after := CreateSession(db, id, session, hash, grant, expected).0;
            || (s in db.sessions && after.sessions[s] == db.sessions[s])
            || Refers(after.sessions[s].value, db.providers, db.channels)
  {
  }

  lemma SessionWrite(db: Db, id: Id, session: Session, expected: nat, s: Id)
    requires s in CompareAndSetSession(db, id, session, expected).0.sessions
    ensures s in db.sessions
    ensures SameReferences(db.sessions[s].value, CompareAndSetSession(db, id, session, expected).0.sessions[s].value)
  {
    var after := CompareAndSetSession(db, id, session, expected).0.sessions;
    assert after == db.sessions || (id in db.sessions && after == db.sessions[id := Versioned(session, expected + 1)]);
  }

  lemma SessionKept(db: Db, op: SessionOp, s: Id)
    requires s in ApplySession(db, op).sessions && !op.CreatesSession? && !op.SetsSession?
    ensures s in db.sessions && SameReferences(db.sessions[s].value, ApplySession(db, op).sessions[s].value)
  {
    var before, after := db.sessions, ApplySession(db, op).sessions;
    match op
    case TouchesPlayback(id, at, _) =>
      assert after == before || (id in before && after ==
        before[id := Versioned(before[id].value.(lastPlaybackActivityAt := Some(at)), before[id].revision + 1)]);
    case BeginsSessionDeletion(id, _, _, _) =>
      assert after == before || (id in before && after ==
        before[id := Versioned(before[id].value.(deletionPending := true), before[id].revision + 1)]);
    case DeletesSession(id, _) => assert after == before - {id};
  }

  /** A session keeps what it refers to, and a new one refers to what exists. */
  lemma SessionOrigin(db: Db, op: SessionOp, s: Id)
    requires s in ApplySession(db, op).sessions
    ensures var session := ApplySession(db, op).sessions[s].value;
            || (s in db.sessions && SameReferences(db.sessions[s].value, session))
            || Refers(session, db.providers, db.channels)
  {
    if op.CreatesSession? {
      SessionCreation(db, op.id, op.session, op.grantHash, op.grant, op.expectedChannel, s);
    } else if op.SetsSession? {
      SessionWrite(db, op.id, op.session, op.expected, s);
    } else {
      SessionKept(db, op, s);
    }
  }

  lemma SessionKeepsReferences(db: Db, op: SessionOp)
    requires SessionsHaveProviders(db.sessions, db.providers) && SessionsHaveChannels(db.sessions, db.channels)
    ensures SessionsHaveProviders(ApplySession(db, op).sessions, db.providers)
    ensures SessionsHaveChannels(ApplySession(db, op).sessions, db.channels)
  {
    forall s | s in ApplySession(db, op).sessions
      ensures Refers(ApplySession(db, op).sessions[s].value, db.providers, db.channels)
    {
      SessionOrigin(db, op, s);
    }
  }

  lemma SessionWriteKeepsOwners(db: Db, id: Id, session: Session, expected: nat)
    requires SessionsHaveOwners(db.sessions, db.users)
    ensures SessionOwnerWritten(db, SetsSession(id, session, expected)) <==>
      SessionsHaveOwners(CompareAndSetSession(db, id, session, expected).0.sessions, db.users)
  {
    if CompareAndSetSession(db, id, session, expected).1.Applied? {
      assert CompareAndSetSession(db, id, session, expected).0.sessions[id].value == session;
    }
  }

  lemma SessionKeepsOwners(db: Db, op: SessionOp)
    requires SessionsHaveOwners(db.sessions, db.users)
    ensures SessionOwnerWritten(db, op) <==> SessionsHaveOwners(ApplySession(db, op).sessions, db.users)
  {
    if op.SetsSession? {
      SessionWriteKeepsOwners(db, op.id, op.session, op.expected);
    }
  }

  lemma ChannelKeepsSessions(db: Db, op: ChannelOp)
    requires SessionsHaveChannels(db.sessions, db.channels)
    ensures SessionsHaveChannels(db.sessions, ApplyChannel(db, op).channels)
  {
    if op.DeletesChannel? && !ChannelInUse(db, op.id) {
      assert forall s :: s in db.sessions ==> db.sessions[s].value.liveChannelId != Some(op.id);
    }
  }

  /** A document put into a table of channels whose owners are known. */
  lemma ChannelPut(
      channels: map<Id, Versioned<Channel>>, users: map<Id, Versioned<Identity>>, id: Id, channel: Channel,
      revision: nat)
    requires ChannelsHaveOwners(channels, users)
    ensures
      ChannelsHaveOwners(channels[id := Versioned(channel, revision)], users) <==> OwnerKnown(channel.ownerId, users)
  {
    assert channels[id := Versioned(channel, revision)][id].value == channel;
  }

  lemma ChannelKeepsOwners(db: Db, op: ChannelOp)
    requires ChannelsHaveOwners(db.channels, db.users)
    ensures ChannelOwnerWritten(db, op) <==> ChannelsHaveOwners(ApplyChannel(db, op).channels, db.users)
  {
    match op
    case CreatesChannel(id, channel) => ChannelPut(db.channels, db.users, id, channel, 1);
    case CreatesChannelWithinCapacity(id, channel, _, _) => ChannelPut(db.channels, db.users, id, channel, 1);
    case SetsChannel(id, channel, expected) => ChannelPut(db.channels, db.users, id, channel, expected + 1);
    case DeletesChannel(_, _) =>
  }

  /** Users are only removed when they own nothing. */
  lemma OwnerStaysKnown(db: Db, op: UserOp, owner: Option<Id>)
    requires OwnerKnown(owner, db.users) && (owner.Some? ==> OwnsResources(db, owner.value))
    ensures OwnerKnown(owner, ApplyUser(db, op).users)
  {
  }

  lemma UserKeepsOwned(db: Db, op: UserOp)
    requires SessionsHaveOwners(db.sessions, db.users) && ChannelsHaveOwners(db.channels, db.users)
    ensures SessionsHaveOwners(db.sessions, ApplyUser(db, op).users)
    ensures ChannelsHaveOwners(db.channels, ApplyUser(db, op).users)
  {
    forall s | s in db.sessions ensures OwnerKnown(db.sessions[s].value.ownerId, ApplyUser(db, op).users) {
      OwnerStaysKnown(db, op, db.sessions[s].value.ownerId);
    }
    forall c | c in db.channels ensures OwnerKnown(db.channels[c].value.ownerId, ApplyUser(db, op).users) {
      OwnerStaysKnown(db, op, db.channels[c].value.ownerId);
    }
  }

  /** Only revocation touches bindings, and it moves none. */
  lemma BindingStays(db: Db, op: NodeOp, b: Id)
    requires b in ApplyNode(db, op).bindings
    ensures b in db.bindings
    ensures ApplyNode(db, op).bindings[b].value.providerId == db.bindings[b].value.providerId
    ensures ApplyNode(db, op).bindings[b].value.nodeId == db.bindings[b].value.nodeId
  {
  }

  lemma NodesStay(db: Db, op: NodeOp, id: Id)
    requires id in db.nodes && !op.RemovesNode?
    ensures id in ApplyNode(db, op).nodes
  {
    var before, after := db.nodes, ApplyNode(db, op).nodes;
    assert after == before || (op.id in after && after == before[op.id := after[op.id]]);
  }

  lemma UsedNodeStays(db: Db, op: NodeOp, id: Id)
    requires id in db.nodes && NodeInUse(db, id)
    ensures id in ApplyNode(db, op).nodes
  {
    if op.RemovesNode? {
      var after := ApplyNode(db, op).nodes;
      assert after == db.nodes || (after == db.nodes - {op.id} && !NodeInUse(db, op.id));
    } else {
      NodesStay(db, op, id);
    }
  }

  lemma NodeKeepsBindings(db: Db, op: NodeOp)
    requires BindingsHaveNodes(db.bindings, db.nodes) && BindingsHaveProviders(db.bindings, db.providers)
    ensures BindingsHaveNodes(ApplyNode(db, op).bindings, ApplyNode(db, op).nodes)
    ensures BindingsHaveProviders(ApplyNode(db, op).bindings, db.providers)
  {
    forall b | b in ApplyNode(db, op).bindings
      ensures ApplyNode(db, op).bindings[b].value.nodeId in ApplyNode(db, op).nodes
      ensures ProviderLive(db.providers, ApplyNode(db, op).bindings[b].value.providerId)
    {
      BindingStays(db, op, b);
      UsedNodeStays(db, op, db.bindings[b].value.nodeId);
    }
  }

  /** One transaction keeps every reference exactly when the owner it writes, if it writes one unchecked, is known. */
  lemma StepKeepsReferences(db: Db, op: Op)
    requires Referential(db)
    ensures Referential(Apply(db, op)) <==> OwnerWritten(db, op)
  {
    match op
    case OnCatalog(o) =>
      CatalogKeepsSessionProviders(db, o);
      CatalogKeepsBindingProviders(db, o);
      CatalogKeepsBindingNodes(db, o);
    case OnSession(o) =>
      SessionKeepsReferences(db, o);
      SessionKeepsOwners(db, o);
    case OnChannel(o) =>
      ChannelKeepsSessions(db, o);
      ChannelKeepsOwners(db, o);
    case OnUser(o) => UserKeepsOwned(db, o);
    case OnNode(o) => NodeKeepsBindings(db, o);
  }

  /** A compare-and-set caller keeps the owner it read; nobody inserts a channel past the capacity check. */
  predicate KeepsOwner(db: Db, op: Op) {
    match op
    case OnSession(SetsSession(id, session, expected)) =>
      id in db.sessions && db.sessions[id].revision == expected ==> session.ownerId == db.sessions[id].value.ownerId
    case OnChannel(SetsChannel(id, channel, expected)) =>
      id in db.channels && db.channels[id].revision == expected ==> channel.ownerId == db.channels[id].value.ownerId
    case OnChannel(CreatesChannel(_, _)) => false
    case _ => true
  }

  /** A run in two parts. */
  lemma {:induction false} AppliedInTurn(db: Db, a: seq<Op>, b: seq<Op>)
    ensures ApplyAll(db, a + b) == ApplyAll(ApplyAll(db, a), b)
    decreases |a|
  {
    if a == [] {
      assert a + b == b;
    } else {
      assert (a + b)[1..] == a[1..] + b;
      AppliedInTurn(Apply(db, a[0]), a[1..], b);
    }
  }

  ghost predicate Along(db: Db, ops: seq<Op>, condition: (Db, Op) -> bool)
    decreases |ops|
  {
    ops == [] || (condition(db, ops[0]) && Along(Apply(db, ops[0]), ops[1..], condition))
  }

  lemma KeptOwnerIsKnown(db: Db, op: Op)
    requires SessionsHaveOwners(db.sessions, db.users) && ChannelsHaveOwners(db.channels, db.users)
        && KeepsOwner(db, op)
    ensures OwnerWritten(db, op)
  {
  }

  /** In any interleaving of transactions by callers that keep owners, no reference ever dangles. */
  lemma {:induction false} ReferencesNeverDangle(db: Db, ops: seq<Op>)
    requires Referential(db) && Along(db, ops, KeepsOwner)
    ensures Referential(ApplyAll(db, ops))
    decreases |ops|
  {
    if ops != [] {
      KeptOwnerIsKnown(db, ops[0]);
      StepKeepsReferences(db, ops[0]);
      ReferencesNeverDangle(Apply(db, ops[0]), ops[1..]);
    }
  }

  ghost predicate ReferentialThroughout(db: Db, ops: seq<Op>)
    decreases |ops|
  {
    Referential(db) && (ops != [] ==> ReferentialThroughout(Apply(db, ops[0]), ops[1..]))
  }

  /** The exact condition: references hold after every step if and only if each unchecked owner written was known. */
  lemma {:induction false} ReferencesHoldThroughout(db: Db, ops: seq<Op>)
    requires Referential(db)
    ensures ReferentialThroughout(db, ops) <==> Along(db, ops, OwnerWritten)
    decreases |ops|
  {
    if ops != [] {
      StepKeepsReferences(db, ops[0]);
      if Referential(Apply(db, ops[0])) {
        ReferencesHoldThroughout(Apply(db, ops[0]), ops[1..]);
      }
    }
  }

  /** A stale session write that names another owner is accepted, because the owner is not part of a session's
      identity. */
  lemma ForeignOwnerIsAccepted()
    ensures exists db: Db, op: Op ::
          Referential(db) && op.OnSession? && op.session.SetsSession? && !Referential(Apply(db, op))
  {
    var session := Session(Live, None, Some(1), 0, 0, None, 0, None, false, 0, false, None);
    var channel := Channel(None, PublisherOffline, 0, None, 0);
    var db := EmptyDb.(channels := map[1 := Versioned(channel, 1)], sessions := map[2 := Versioned(session, 1)]);
    var op := OnSession(SetsSession(2, session.(ownerId := Some(3)), 1));
    assert Referential(db);
    assert !OwnerWritten(db, op);
    StepKeepsReferences(db, op);
  }

  // ---------------------------------------------------------------- the certificate table

  predicate Active(certificates: map<Id, Certificate>, s: Id) {
    s in certificates && certificates[s].revokedAt.None?
  }

  ghost predicate OneActivePerNode(certificates: map<Id, Certificate>) {
    forall s, t ::
      Active(certificates, s) && Active(certificates, t) && certificates[s].nodeId == certificates[t].nodeId ==> s == t
  }

  predicate Usable(nodes: map<Id, Versioned<ClusterNode>>, id: Id) {
    id in nodes && !nodes[id].value.state.Revoked?
  }

  ghost predicate ActiveOnlyForUsable(certificates: map<Id, Certificate>, nodes: map<Id, Versioned<ClusterNode>>) {
    forall s :: Active(certificates, s) ==> Usable(nodes, certificates[s].nodeId)
  }

  ghost predicate CertificatesSound(db: Db) {
    OneActivePerNode(db.certificates) && ActiveOnlyForUsable(db.certificates, db.nodes)
  }

  predicate HoldsActive(db: Db, id: Id) {
    exists s :: s in db.certificates && db.certificates[s].nodeId == id && db.certificates[s].revokedAt.None?
  }

  /** Registrations may not introduce the revoked state beside an unrevoked certificate. */
  predicate RegistersUsable(db: Db, op: NodeOp) {
    match op
    case CreatesNode(id, node, serial, certificate) =>
      CreateNode(db, id, node, serial, certificate).1.Applied? && certificate.Some? ==> !node.state.Revoked?
    case EnsuresLocalNode(id, node) =>
      id in db.nodes && HoldsActive(db, id) ==> !node.state.Revoked? || Protected(db.nodes[id].value.state)
    case _ => true
  }

  lemma CreationKeepsCertificates(db: Db, id: Id, node: ClusterNode, serial: Id, certificate: Option<Certificate>)
    requires CertificatesSound(db)
    ensures CertificatesSound(CreateNode(db, id, node, serial, certificate).0) <==>
      RegistersUsable(db, CreatesNode(id, node, serial, certificate))
  {
    var r := CreateNode(db, id, node, serial, certificate);
    if r.1.Applied? && certificate.Some? {
      assert Active(r.0.certificates, serial);
      assert forall s :: Active(r.0.certificates, s) ==> s == serial || Active(db.certificates, s);
    }
  }

  /** After a registration the node is usable unless it was protected as revoked or registers itself as revoked. */
  lemma RegisteredUsable(db: Db, id: Id, node: ClusterNode, other: Id)
    requires Usable(db.nodes, other)
    ensures Usable(EnsureLocalNode(db, id, node).0.nodes, other) <==>
              other != id || !node.state.Revoked? || Protected(db.nodes[id].value.state)
  {
    var before, after := db.nodes, EnsureLocalNode(db, id, node).0.nodes;
    assert after == before[id := after[id]];
    if other == id {
      assert after[id].value.state == if Protected(before[id].value.state) then before[id].value.state else node.state;
    }
  }

  lemma UnusableLocalNode(db: Db, id: Id, node: ClusterNode)
    requires CertificatesSound(db) && !RegistersUsable(db, EnsuresLocalNode(id, node))
    ensures !ActiveOnlyForUsable(db.certificates, EnsureLocalNode(db, id, node).0.nodes)
  {
    var s :| s in db.certificates && db.certificates[s].nodeId == id && db.certificates[s].revokedAt.None?;
    assert Active(db.certificates, s);
    RegisteredUsable(db, id, node, id);
  }

  lemma UsableLocalNode(db: Db, id: Id, node: ClusterNode)
    requires CertificatesSound(db) && RegistersUsable(db, EnsuresLocalNode(id, node))
    ensures ActiveOnlyForUsable(db.certificates, EnsureLocalNode(db, id, node).0.nodes)
  {
    forall s | Active(db.certificates, s)
      ensures Usable(EnsureLocalNode(db, id, node).0.nodes, db.certificates[s].nodeId)
    {
      RegisteredUsable(db, id, node, db.certificates[s].nodeId);
    }
  }

  lemma LocalRegistrationKeepsCertificates(db: Db, id: Id, node: ClusterNode)
    requires CertificatesSound(db)
    ensures CertificatesSound(EnsureLocalNode(db, id, node).0) <==> RegistersUsable(db, EnsuresLocalNode(id, node))
  {
    assert EnsureLocalNode(db, id, node).0.certificates == db.certificates;
    if RegistersUsable(db, EnsuresLocalNode(id, node)) {
      UsableLocalNode(db, id, node);
    } else {
      UnusableLocalNode(db, id, node);
    }
  }

  /** Rotation and revocation first revoke whatever the node held. */
  lemma RevokedFirst(certificates: map<Id, Certificate>, nodeId: Id, at: Millis, s: Id)
    ensures Active(CertificatesRevoked(certificates, nodeId, at), s) <==>
          Active(certificates, s) && certificates[s].nodeId != nodeId
    ensures s in certificates ==> CertificatesRevoked(certificates, nodeId, at)[s].nodeId == certificates[s].nodeId
  {
  }

  lemma RotationKeepsCertificates(db: Db, op: NodeOp)
    requires CertificatesSound(db) && op.RotatesCertificate?
    ensures CertificatesSound(ApplyNode(db, op))
  {
    forall s { RevokedFirst(db.certificates, op.id, op.at, s); }
  }

  lemma RevocationKeepsCertificates(db: Db, op: NodeOp)
    requires CertificatesSound(db) && op.RevokesNode?
    ensures CertificatesSound(ApplyNode(db, op))
  {
    forall s { RevokedFirst(db.certificates, op.id, op.at, s); }
  }

  lemma UpdateKeepsCertificates(db: Db, op: NodeOp)
    requires CertificatesSound(db)
    requires op.RecordsHeartbeat? || op.SetsDrain? || op.SetsOperationalState? || op.RemovesNode?
    ensures CertificatesSound(ApplyNode(db, op))
  {
  }

  /** Each node has at most one unrevoked certificate, a revoked or removed node has none. */
  lemma StepKeepsCertificates(db: Db, op: Op)
    requires CertificatesSound(db)
    ensures CertificatesSound(Apply(db, op)) <==> (op.OnNode? ==> RegistersUsable(db, op.node))
  {
    if op.OnNode? {
      match op.node
      case CreatesNode(id, node, serial, certificate) => CreationKeepsCertificates(db, id, node, serial, certificate);
      case EnsuresLocalNode(id, node) => LocalRegistrationKeepsCertificates(db, id, node);
      case RotatesCertificate(_, _, _, _, _) => RotationKeepsCertificates(db, op.node);
      case RevokesNode(_, _, _) => RevocationKeepsCertificates(db, op.node);
      case _ => UpdateKeepsCertificates(db, op.node);
    }
  }

  ghost predicate RegistersUsableNodes(db: Db, op: Op) {
    op.OnNode? ==> RegistersUsable(db, op.node)
  }

  /** Over any run: the certificate table stays sound as long as nobody registers a node as revoked. */
  lemma {:induction false} CertificatesStaySound(db: Db, ops: seq<Op>)
    requires CertificatesSound(db) && Along(db, ops, RegistersUsableNodes)
    ensures CertificatesSound(ApplyAll(db, ops))
    decreases |ops|
  {
    if ops != [] {
      StepKeepsCertificates(db, ops[0]);
      CertificatesStaySound(Apply(db, ops[0]), ops[1..]);
    }
  }

  /** The controller's check of a presented certificate. */
  predicate CertificateIsActive(db: Db, id: Id, serial: Id, now: Millis) {
    && Usable(db.nodes, id)
    && Active(db.certificates, serial) && db.certificates[serial].nodeId == id
      && db.certificates[serial].expiresAt > now
  }

  /** Of all certificates of a node, a successful rotation leaves the new one as the only one that authenticates. */
  lemma RotationSupersedes(db: Db, id: Id, expected: nat, serial: Id, certificate: Certificate, at: Millis, other: Id,
      now: Millis)
    requires RotateCertificate(db, id, expected, serial, certificate, at).1.Applied?
    ensures
      var after := RotateCertificate(db, id, expected, serial, certificate, at).0;
      CertificateIsActive(after, id, other, now) <==> other == serial && certificate.expiresAt > now
  {
    RevokedFirst(db.certificates, id, at, other);
  }

  lemma NodeGrowsCertificates(db: Db, op: NodeOp, s: Id)
    requires s in db.certificates
    ensures s in ApplyNode(db, op).certificates
    ensures ApplyNode(db, op).certificates[s].nodeId == db.certificates[s].nodeId
    ensures ApplyNode(db, op).certificates[s].fingerprint == db.certificates[s].fingerprint
    ensures db.certificates[s].revokedAt.Some? ==> ApplyNode(db, op).certificates[s] == db.certificates[s]
  {
    match op
    case CreatesNode(_, _, _, _) =>
    case RotatesCertificate(_, _, _, _, _) =>
    case RevokesNode(_, _, _) =>
    case _ => assert ApplyNode(db, op).certificates == db.certificates;
  }

  /** A row of the certificate table is never removed, keeps its node, and once revoked never changes. */
  lemma CertificateRowsOnlyGrow(db: Db, op: Op, s: Id)
    requires s in db.certificates
    ensures s in Apply(db, op).certificates
    ensures Apply(db, op).certificates[s].nodeId == db.certificates[s].nodeId
    ensures Apply(db, op).certificates[s].fingerprint == db.certificates[s].fingerprint
    ensures db.certificates[s].revokedAt.Some? ==> Apply(db, op).certificates[s] == db.certificates[s]
  {
    if op.OnNode? {
      NodeGrowsCertificates(db, op.node, s);
    }
  }

  /** A serial comes into the table with the creation of a node or a rotation. */
  lemma CertificateOrigin(db: Db, op: NodeOp, s: Id)
    requires s in ApplyNode(db, op).certificates
    ensures s in db.certificates || ((op.CreatesNode? || op.RotatesCertificate?) && op.serial == s)
  {
  }

  lemma {:induction false} RevokedCertificateIsDead(db: Db, ops: seq<Op>, s: Id, id: Id, now: Millis)
    requires s in db.certificates && db.certificates[s].revokedAt.Some?
    ensures s in ApplyAll(db, ops).certificates && ApplyAll(db, ops).certificates[s] == db.certificates[s]
    ensures !CertificateIsActive(ApplyAll(db, ops), id, s, now)
    decreases |ops|
  {
    if ops != [] {
      CertificateRowsOnlyGrow(db, ops[0], s);
      RevokedCertificateIsDead(Apply(db, ops[0]), ops[1..], s, id, now);
    }
  }

  // ---------------------------------------------------------------- revoked is left only by removal

  predicate RevokedNode(db: Db, id: Id) {
    id in db.nodes && db.nodes[id].value.state.Revoked?
  }

  predicate Removes(op: Op, id: Id) {
    op.OnNode? && op.node.RemovesNode? && op.node.id == id
  }

  lemma OtherNodesUntouched(db: Db, op: NodeOp, id: Id)
    requires op.id != id
    ensures Get(ApplyNode(db, op).nodes, id) == Get(db.nodes, id)
  {
    match op
    case CreatesNode(_, _, _, _) =>
    case RotatesCertificate(_, _, _, _, _) =>
    case RevokesNode(_, _, _) =>
    case _ =>
  }

  lemma NodeKeepsRevoked(db: Db, op: NodeOp, id: Id)
    requires RevokedNode(db, id)
    ensures RevokedNode(ApplyNode(db, op), id) || (Removes(OnNode(op), id) && id !in ApplyNode(db, op).nodes)
  {
    if op.id != id {
      OtherNodesUntouched(db, op, id);
    } else {
      var nodes := ApplyNode(db, op).nodes;
      match op
      case RemovesNode(_, _) =>
      case CreatesNode(_, _, _, _) => assert nodes == db.nodes;
      case RotatesCertificate(_, _, _, _, _) => assert nodes == db.nodes;
      case SetsDrain(_, _, _) => assert nodes == db.nodes;
      case SetsOperationalState(_, _, _) => assert nodes == db.nodes;
      case EnsuresLocalNode(_, _) => assert nodes[id].value.state.Revoked?;
      case RecordsHeartbeat(_, _, _, _, _) => assert nodes[id].value.state.Revoked?;
      case RevokesNode(_, _, _) => assert nodes[id].value.state.Revoked?;
    }
  }

  lemma StepKeepsRevoked(db: Db, op: Op, id: Id)
    requires RevokedNode(db, id)
    ensures RevokedNode(Apply(db, op), id) || (Removes(op, id) && id !in Apply(db, op).nodes)
  {
    if op.OnNode? {
      NodeKeepsRevoked(db, op.node, id);
    } else {
      assert Apply(db, op).nodes == db.nodes;
    }
  }

  /** No heartbeat, drain, local registration or rotation brings a revoked node back, each taken as one transaction;
      SuspendedWriters says when that may be done with those that suspend between their read and their write. */
  lemma {:induction false} RevokedUntilRemoved(db: Db, ops: seq<Op>, id: Id)
    requires RevokedNode(db, id) && (forall k :: 0 <= k < |ops| ==> !Removes(ops[k], id))
    ensures RevokedNode(ApplyAll(db, ops), id)
    decreases |ops|
  {
    if ops != [] {
      StepKeepsRevoked(db, ops[0], id);
      RevokedUntilRemoved(Apply(db, ops[0]), ops[1..], id);
    }
  }

  // ---------------------------------------------------------------- the last owner

  ghost predicate HasOwner(db: Db) {
    Owners(db) != {}
  }

  /** The write that rewrites a whole identity under its revision may drop the role only while another owner remains. */
  predicate LeavesAnOwner(db: Db, op: Op) {
    match op
    case OnUser(SetsUser(id, identity, expected)) =>
      CompareAndSetUser(db, id, identity, expected).1.Applied? && Owner !in identity.roles ==> Owners(db) - {id} != {}
    case _ => true
  }

  lemma LoneOwner(db: Db, id: Id)
    requires id in Owners(db)
    ensures |Owners(db)| <= 1 <==> Owners(db) - {id} == {}
  {
    assert Owners(db) == (Owners(db) - {id}) + {id};
    assert |Owners(db)| == |Owners(db) - {id}| + 1;
  }

  lemma OwnersAfterWrite(db: Db, id: Id, identity: Identity, revision: nat)
    ensures Owners(db.(users := db.users[id := Versioned(identity, revision)])) ==
      Owners(db) - {id} + (if Owner in identity.roles then {id} else {})
    ensures Owners(db.(users := db.users - {id})) == Owners(db) - {id}
  {
  }

  lemma UserKeepsOwner(db: Db, op: UserOp)
    requires HasOwner(db)
    ensures HasOwner(ApplyUser(db, op)) <==> LeavesAnOwner(db, OnUser(op))
  {
    if op.id in Owners(db) {
      LoneOwner(db, op.id);
    }
    match op
    case CreatesUser(id, identity) => OwnersAfterWrite(db, id, identity, 1);
    case SetsUser(id, identity, expected) => OwnersAfterWrite(db, id, identity, expected + 1);
    case SetsUserPreservingOwner(id, identity, expected) => OwnersAfterWrite(db, id, identity, expected + 1);
    case DeletesUser(id, _, _) => OwnersAfterWrite(db, id, Identity({}, 0, 0), 0);
  }

  /** Role changes and deletions refuse to take the last owner; the whole-document write must not drop the role. */
  lemma StepKeepsOwner(db: Db, op: Op)
    requires HasOwner(db)
    ensures HasOwner(Apply(db, op)) <==> LeavesAnOwner(db, op)
  {
    if op.OnUser? {
      UserKeepsOwner(db, op.user);
    } else {
      assert Apply(db, op).users == db.users;
    }
  }

  lemma {:induction false} OwnerRemains(db: Db, ops: seq<Op>)
    requires HasOwner(db) && Along(db, ops, LeavesAnOwner)
    ensures HasOwner(ApplyAll(db, ops))
    decreases |ops|
  {
    if ops != [] {
      StepKeepsOwner(db, ops[0]);
      OwnerRemains(Apply(db, ops[0]), ops[1..]);
    }
  }

  // ---------------------------------------------------------------- deletion in two phases

  ghost predicate PendingWithoutDependents(db: Db, id: Id) {
    id in db.providers && db.providers[id].deletionPending && !HasDependents(db, id)
  }

  predicate Finalizes(db: Db, op: Op, id: Id) {
    && id in db.providers && op.OnCatalog? && op.catalog.FinalizesProviderDeletion? && op.catalog.id == id
    && op.catalog.expected == db.providers[id].revision
  }

  lemma CatalogKeepsPendingRow(db: Db, op: CatalogOp, id: Id)
    requires id in db.providers && db.providers[id].deletionPending && !Finalizes(db, OnCatalog(op), id)
    ensures id in ApplyCatalog(db, op).providers && ApplyCatalog(db, op).providers[id] == db.providers[id]
  {
    var before, after := db.providers, ApplyCatalog(db, op).providers;
    match op
    case CreatesProvider(p, provider) =>
      assert after == before || (p !in before && after == before[p := ProviderRow(provider, 1, false)]);
    case SetsProvider(p, provider, expected) =>
      assert after == before
          || (p in before && !before[p].deletionPending
              && after == before[p := ProviderRow(provider, expected + 1, false)]);
    case CreatesBinding(provider, b, binding, expected) => ProviderOfBinding(db, provider, b, binding, expected, id);
    case BeginsProviderDeletion(p) =>
      assert after == before
          || (p in before && !before[p].deletionPending && p in after && after == before[p := after[p]]);
    case FinalizesProviderDeletion(p, expected) =>
      assert after == before || (p in before && before[p].revision == expected && after == before - {p});
    case _ => assert after == before;
  }

  lemma CatalogKeepsPendingUnbound(db: Db, op: CatalogOp, id: Id)
    requires id in db.providers && db.providers[id].deletionPending
    requires forall b :: b in db.bindings ==> db.bindings[b].value.providerId != id
    ensures forall b :: b in ApplyCatalog(db, op).bindings ==> ApplyCatalog(db, op).bindings[b].value.providerId != id
  {
    if op.CreatesBinding? {
      forall b | b in ApplyCatalog(db, op).bindings ensures ApplyCatalog(db, op).bindings[b].value.providerId != id {
        BindingCreation(db, op.provider, op.id, op.binding, op.expectedProvider, b);
        ProviderOfBinding(db, op.provider, op.id, op.binding, op.expectedProvider, id);
      }
    }
  }

  predicate SourceOnlyForVod(op: Op) {
    op.OnSession? && op.session.CreatesSession? && op.session.session.source.Some? ==> op.session.session.kind.Vod?
  }

  lemma SessionKeepsPending(db: Db, op: SessionOp, id: Id)
    requires id in db.providers && db.providers[id].deletionPending && SourceOnlyForVod(OnSession(op))
    requires forall s :: s in db.sessions && db.sessions[s].value.source.Some? ==>
        db.sessions[s].value.source.value.providerId != id
    ensures forall s :: s in ApplySession(db, op).sessions && ApplySession(db, op).sessions[s].value.source.Some? ==>
      ApplySession(db, op).sessions[s].value.source.value.providerId != id
  {
  }

  /** A provider marked for deletion only waits: its row is untouched and gains no dependent until it is removed. */
  lemma PendingProviderWaits(db: Db, op: Op, id: Id)
    requires PendingWithoutDependents(db, id) && SourceOnlyForVod(op)
    ensures if Finalizes(db, op, id) then id !in Apply(db, op).providers
            else PendingWithoutDependents(Apply(db, op), id) && Apply(db, op).providers[id] == db.providers[id]
  {
    DependentsRefuse(db, id);
    DependentsRefuse(Apply(db, op), id);
    match op
    case OnCatalog(o) => if !Finalizes(db, op, id) {
      CatalogKeepsPendingRow(db, o, id);
      CatalogKeepsPendingUnbound(db, o, id);
    }
    case OnSession(o) => SessionKeepsPending(db, o, id);
    case _ =>
  }

  /** However long the deletion takes to be resumed, only its own finalization ends the wait. */
  lemma {:induction false} PendingProviderWaitsThroughout(db: Db, ops: seq<Op>, id: Id)
    requires PendingWithoutDependents(db, id)
    requires forall k :: 0 <= k < |ops| ==> SourceOnlyForVod(ops[k]) && !Finalizes(db, ops[k], id)
    ensures PendingWithoutDependents(ApplyAll(db, ops), id) && ApplyAll(db, ops).providers[id] == db.providers[id]
    decreases |ops|
  {
    if ops != [] {
      PendingProviderWaits(db, ops[0], id);
      PendingProviderWaitsThroughout(Apply(db, ops[0]), ops[1..], id);
    }
  }
}
