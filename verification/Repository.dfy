/**
 The relational repository. Every transaction is one function from the tables before it to the tables
 after it and its result; a statement that violates a key throws and leaves the tables as they were.
 Timestamps and display fields are omitted.
 */
module Repository {
  import opened Prelude

  datatype Provider = Provider(kind: Id, baseUrl: Id, allowPublicHttp: bool, secretRef: Id, metadata: Id)
  datatype ProviderRow = ProviderRow(value: Provider, revision: nat, deletionPending: bool)

  datatype BindingState = Unvalidated | Healthy | Impaired | Withdrawn
  datatype Binding = Binding(providerId: Id, nodeId: Id, secretRef: Id, state: BindingState)
  datatype BindingRow = BindingRow(value: Binding, revision: nat, deletionPending: bool)

  datatype MediaSource = MediaSource(providerId: Id, itemId: Id, versionId: Id, fingerprint: Id, audioTrack: Id,
    subtitleTrack: Id)
  datatype SessionKind = Vod | Live
  datatype Session = Session(
    kind: SessionKind, source: Option<MediaSource>, liveChannelId: Option<Id>, profileId: Id, platformMode: Id,
    durationSeconds: Option<nat>, createdAt: Millis,
    ownerId: Option<Id>, pinned: bool, viewers: nat, deletionPending: bool, lastPlaybackActivityAt: Option<Millis>)
  datatype Grant = Grant(sessionId: Id, revokedAt: Option<Millis>)

  datatype PublisherState = PublisherOffline | PublisherOnline | PublisherReconnecting | PublisherError
  datatype Channel = Channel(
    ownerId: Option<Id>, publisherState: PublisherState, publishTokenHash: Id, replacementTokenHash: Option<Id>,
      metadata: Id)

  datatype Role = User | Operator | Admin | Owner
  datatype Identity = Identity(roles: set<Role>, displayName: Id, lastSeenAt: Millis)

  datatype NodeState = Joining | Online | Degraded | Draining | Offline | Revoked
  datatype NodeRole = ControllerRole | SourceWorker | IngestOrigin | Edge
  datatype ClusterNode = ClusterNode(
    roles: set<NodeRole>, state: NodeState, capabilities: Id, certificateExpiresAt: Option<Millis>, createdAt: Millis)
  datatype Certificate = Certificate(nodeId: Id, fingerprint: Id, expiresAt: Millis, revokedAt: Option<Millis>)

  datatype Db = Db(
    providers: map<Id, ProviderRow>,
    bindings: map<Id, BindingRow>,
    sessions: map<Id, Versioned<Session>>,
    grants: map<Id, Grant>,
    channels: map<Id, Versioned<Channel>>,
    users: map<Id, Versioned<Identity>>,
    nodes: map<Id, Versioned<ClusterNode>>,
    certificates: map<Id, Certificate>)      // by serial number; rows are never deleted

  const EmptyDb := Db(map[], map[], map[], map[], map[], map[], map[], map[])

  datatype Reason = NotFound | RevisionConflict | InvalidState | DependencyConflict
  datatype Result<+T> = Applied(record: Versioned<T>) | Refused(reason: Reason) | Thrown

  // ---------------------------------------------------------------- the compare-and-set of every versioned table

  function CompareAndSet<T>(table: map<Id, Versioned<T>>, id: Id, value: T, expected: nat):
      (map<Id, Versioned<T>>, Result<T>)
  {
    if id !in table then (table, Refused(NotFound))
    else if table[id].revision != expected then (table, Refused(RevisionConflict))
    else (table[id := Versioned(value, expected + 1)], Applied(Versioned(value, expected + 1)))
  }

  // ---------------------------------------------------------------- providers

  function CreateProvider(db: Db, id: Id, provider: Provider): (Db, Result<Provider>) {
    if id in db.providers then (db, Thrown)
    else (db.(providers := db.providers[id := ProviderRow(provider, 1, false)]), Applied(Versioned(provider, 1)))
  }

  function CompareAndSetProvider(db: Db, id: Id, provider: Provider, expected: nat): (Db, Result<Provider>) {
    if id !in db.providers then (db, Refused(NotFound))
    else if db.providers[id].revision != expected then (db, Refused(RevisionConflict))
    else if db.providers[id].deletionPending then (db, Refused(InvalidState))
    else (db.(providers := db.providers[id := ProviderRow(provider, expected + 1, false)]),
      Applied(Versioned(provider, expected + 1)))
  }

  predicate UsesProvider(s: Session, id: Id) {
    s.source.Some? && s.source.value.providerId == id
  }

  predicate HasDependents(db: Db, id: Id) {
    || (exists s :: s in db.sessions && UsesProvider(db.sessions[s].value, id))
    || (exists b :: b in db.bindings && db.bindings[b].value.providerId == id)
  }

  function BeginProviderDeletion(db: Db, id: Id): (Db, Result<Provider>) {
    if id !in db.providers then (db, Refused(NotFound))
    else
      var row := db.providers[id];
      if row.deletionPending then (db, Applied(Versioned(row.value, row.revision)))
      else if HasDependents(db, id) then (db, Refused(DependencyConflict))
      else (db.(providers := db.providers[id := ProviderRow(row.value, row.revision + 1, true)]),
            Applied(Versioned(row.value, row.revision + 1)))
  }

  function FinalizeProviderDeletion(db: Db, id: Id, expected: nat): (Db, Result<Provider>) {
    if id !in db.providers then (db, Refused(NotFound))
    else
      var row := db.providers[id];
      if row.revision != expected then (db, Refused(RevisionConflict))
      else if !row.deletionPending then (db, Refused(InvalidState))
      else if HasDependents(db, id) then (db, Refused(DependencyConflict))
      else (db.(providers := db.providers - {id}), Applied(Versioned(row.value, row.revision)))
  }

  // ---------------------------------------------------------------- bindings

  predicate SameServer(a: Provider, b: Provider) {
    a.kind == b.kind && a.baseUrl == b.baseUrl
  }

  function MergedMetadata(current: Provider, candidate: Provider): Provider {
    current.(metadata := candidate.metadata)
  }

  datatype BindingRefusal =
    BindingConflict | BindingDeleting | NodeUnavailable | ProviderConflict | ProviderDeleting | ProviderNotFound |
    ProviderRevisionConflict
  datatype BindingResult =
    | BindingCreated(provider: Provider, binding: Versioned<Binding>)
    | BindingRefused(why: BindingRefusal, currentProvider: Option<Provider>, current: Option<Binding>)

  predicate NodeAvailable(db: Db, id: Id) {
    id in db.nodes && !db.nodes[id].value.state.Revoked? && SourceWorker in db.nodes[id].value.roles
  }

  /** `expected` is absent when the binding is to create its provider too. */
  function CreateProviderBinding(db: Db, provider: Provider, id: Id, binding: Binding, expected: Option<nat>):
      (Db, BindingResult)
  {
    var pid := binding.providerId;
    var existing := Get(db.providers, pid);
    var known := if existing.Some? then Some(existing.value.value) else None;
    if id in db.bindings then
      (db, BindingRefused(if db.bindings[id].deletionPending then BindingDeleting
        else BindingConflict, known, Some(db.bindings[id].value)))
    else if !NodeAvailable(db, binding.nodeId) then (db, BindingRefused(NodeUnavailable, None, None))
    else if expected.None? && existing.Some? then
      (db, BindingRefused(if existing.value.deletionPending then ProviderDeleting else ProviderConflict, known, None))
    else if expected.Some? && existing.None? then (db, BindingRefused(ProviderNotFound, None, None))
    else if expected.Some? && existing.value.deletionPending then (db, BindingRefused(ProviderDeleting, known, None))
    else if expected.Some? && existing.value.revision != expected.value
      then (db, BindingRefused(ProviderRevisionConflict, known, None))
    else if expected.Some? && !SameServer(existing.value.value, provider)
      then (db, BindingRefused(ProviderConflict, known, None))
    else
      var stored := if expected.None? then provider else MergedMetadata(existing.value.value, provider);
      var revision := if expected.None? then 1 else expected.value + 1;
      (db.(providers := db.providers[pid := ProviderRow(stored, revision, false)],
           bindings := db.bindings[id := BindingRow(binding, 1, false)]),
       BindingCreated(stored, Versioned(binding, 1)))
  }

  /** Provider, node and secret reference are part of the update's condition, so they never change. */
  function CompareAndSetBinding(db: Db, id: Id, binding: Binding, expected: nat, allowed: set<BindingState>):
      (Db, Result<Binding>)
  {
    if id !in db.bindings then (db, Refused(NotFound))
    else
      var row := db.bindings[id];
      if row.revision != expected then (db, Refused(RevisionConflict))
      else if row.deletionPending || row.value.(state := binding.state) != binding
        || (allowed != {} && row.value.state !in allowed)
      then (db, Refused(InvalidState))
      else (db.(bindings := db.bindings[id := BindingRow(binding, expected + 1, false)]),
        Applied(Versioned(binding, expected + 1)))
  }

  function BeginBindingDeletion(db: Db, id: Id): (Db, Result<Binding>) {
    if id !in db.bindings then (db, Refused(NotFound))
    else
      var row := db.bindings[id];
      if row.deletionPending then (db, Applied(Versioned(row.value, row.revision)))
      else
        var pending := row.value.(state := Withdrawn);
        (db.(bindings := db.bindings[id := BindingRow(pending, row.revision + 1, true)]),
          Applied(Versioned(pending, row.revision + 1)))
  }

  function FinalizeBindingDeletion(db: Db, id: Id, expected: nat): (Db, Result<Binding>) {
    if id !in db.bindings then (db, Refused(NotFound))
    else
      var row := db.bindings[id];
      if row.revision != expected then (db, Refused(RevisionConflict))
      else if !row.deletionPending then (db, Refused(InvalidState))
      else (db.(bindings := db.bindings - {id}), Applied(Versioned(row.value, row.revision)))
  }

  // ---------------------------------------------------------------- sessions

  function CreateSession(db: Db, id: Id, session: Session, grantHash: Id, grant: Grant, expectedChannel: Option<nat>):
      (Db, Result<Session>)
  {
    if grant.sessionId != id then (db, Thrown)
    else if session.ownerId.Some? && session.ownerId.value !in db.users then (db, Refused(NotFound))
    else if session.kind.Vod? && session.source.None? then (db, Thrown)
    else if session.kind.Vod? && session.source.value.providerId !in db.providers then (db, Refused(NotFound))
    else if session.kind.Vod? && db.providers[session.source.value.providerId].deletionPending
      then (db, Refused(InvalidState))
    else if session.kind.Live? && (session.liveChannelId.None? || expectedChannel.None?) then (db, Thrown)
    else if session.kind.Live? && session.liveChannelId.value !in db.channels then (db, Refused(NotFound))
    else if session.kind.Live? && db.channels[session.liveChannelId.value].revision != expectedChannel.value
      then (db, Refused(RevisionConflict))
    else if grantHash in db.grants || id in db.sessions then (db, Thrown)
    else (db.(grants := db.grants[grantHash := grant], sessions := db.sessions[id := Versioned(session, 1)]),
      Applied(Versioned(session, 1)))
  }

  predicate SameMediaSource(a: Option<MediaSource>, b: Option<MediaSource>) {
    if a.None? || b.None? then a == b
    else
      && a.value.providerId == b.value.providerId && a.value.itemId == b.value.itemId
        && a.value.versionId == b.value.versionId
      && a.value.fingerprint == b.value.fingerprint && a.value.audioTrack == b.value.audioTrack
        && a.value.subtitleTrack == b.value.subtitleTrack
  }

  /** The owner is not part of a session's identity. */
  predicate SameSessionIdentity(a: Session, b: Session) {
    && a.kind == b.kind && SameMediaSource(a.source, b.source) && a.liveChannelId == b.liveChannelId
    && a.profileId == b.profileId && a.platformMode == b.platformMode && a.durationSeconds == b.durationSeconds
      && a.createdAt == b.createdAt
  }

  function CompareAndSetSession(db: Db, id: Id, session: Session, expected: nat): (Db, Result<Session>) {
    if id in db.sessions && db.sessions[id].revision == expected && !SameSessionIdentity(db.sessions[id].value, session)
    then (db, Refused(InvalidState))
    else
      var (table, result) := CompareAndSet(db.sessions, id, session, expected);
      (db.(sessions := table), result)
  }

  function LastActivity(s: Session): Millis {
    if s.lastPlaybackActivityAt.Some? then s.lastPlaybackActivityAt.value else s.createdAt
  }

  function TouchPlaybackActivity(db: Db, id: Id, observedAt: Millis, touchBefore: Millis): (Db, bool) {
    if id in db.sessions && !db.sessions[id].value.deletionPending
      && LastActivity(db.sessions[id].value) <= touchBefore then
      var row := db.sessions[id];
      (db.(sessions := db.sessions[id := Versioned(row.value.(lastPlaybackActivityAt := Some(observedAt)),
        row.revision + 1)]), true)
    else (db, false)
  }

  function GrantsRevoked(grants: map<Id, Grant>, sessionId: Id, at: Millis): map<Id, Grant> {
    map g | g in grants ::
      if grants[g].sessionId == sessionId && grants[g].revokedAt.None? then grants[g].(revokedAt := Some(at))
        else grants[g]
  }

  function BeginSessionDeletion(db: Db, id: Id, requireUnpinned: bool, inactiveBefore: Option<Millis>,
      observedAt: Millis): (Db, Result<Session>)
  {
    if id !in db.sessions then (db, Refused(NotFound))
    else
      var row := db.sessions[id];
      if row.value.deletionPending || (requireUnpinned && row.value.pinned)
         || (inactiveBefore.Some? && LastActivity(row.value) > inactiveBefore.value)
      then (db, Refused(InvalidState))
      else
        var value := row.value.(deletionPending := true);
        (db.(sessions := db.sessions[id := Versioned(value, row.revision + 1)],
          grants := GrantsRevoked(db.grants, id, observedAt)),
         Applied(Versioned(value, row.revision + 1)))
  }

  function DeleteSession(db: Db, id: Id, at: Millis): Db {
    db.(sessions := db.sessions - {id}, grants := GrantsRevoked(db.grants, id, at))
  }

  // ---------------------------------------------------------------- live channels

  /** The unguarded insert: nothing about the owner is checked. */
  function CreateChannel(db: Db, id: Id, channel: Channel): (Db, Result<Channel>) {
    if id in db.channels then (db, Thrown)
    else (db.(channels := db.channels[id := Versioned(channel, 1)]), Applied(Versioned(channel, 1)))
  }

  datatype CapacityResult = ChannelCreated | InstallationLimit | OwnerNotFound | OwnerLimit | ChannelThrown

  function OwnedChannels(db: Db, owner: Id): set<Id> {
    set c | c in db.channels && db.channels[c].value.ownerId == Some(owner)
  }

  function CreateChannelWithinCapacity(db: Db, id: Id, channel: Channel, maxTotal: nat, maxPerOwner: nat):
      (Db, CapacityResult)
  {
    if |db.channels| >= maxTotal then (db, InstallationLimit)
    else if channel.ownerId.Some? && channel.ownerId.value !in db.users then (db, OwnerNotFound)
    else if channel.ownerId.Some? && |OwnedChannels(db, channel.ownerId.value)| >= maxPerOwner then (db, OwnerLimit)
    else if id in db.channels then (db, ChannelThrown)
    else (CreateChannel(db, id, channel).0, ChannelCreated)
  }

  function CompareAndSetChannel(db: Db, id: Id, channel: Channel, expected: nat): (Db, Result<Channel>) {
    var (table, result) := CompareAndSet(db.channels, id, channel, expected);
    (db.(channels := table), result)
  }

  predicate ChannelInUse(db: Db, id: Id) {
    exists s :: s in db.sessions && db.sessions[s].value.liveChannelId == Some(id)
  }

  function DeleteChannel(db: Db, id: Id, expected: nat): (Db, Result<Channel>) {
    if id !in db.channels then (db, Refused(NotFound))
    else
      var row := db.channels[id];
      if row.revision != expected then (db, Refused(RevisionConflict))
      else if !row.value.publisherState.PublisherOffline? || ChannelInUse(db, id) then (db, Refused(InvalidState))
      else (db.(channels := db.channels - {id}), Applied(row))
  }

  // ---------------------------------------------------------------- user identities

  function CreateUser(db: Db, id: Id, identity: Identity): (Db, Result<Identity>) {
    if id in db.users then (db, Thrown)
    else (db.(users := db.users[id := Versioned(identity, 1)]), Applied(Versioned(identity, 1)))
  }

  function CompareAndSetUser(db: Db, id: Id, identity: Identity, expected: nat): (Db, Result<Identity>) {
    var (table, result) := CompareAndSet(db.users, id, identity, expected);
    (db.(users := table), result)
  }

  function Owners(db: Db): set<Id> {
    set u | u in db.users && Owner in db.users[u].value.roles
  }

  function CompareAndSetUserPreservingOwner(db: Db, id: Id, identity: Identity, expected: nat): (Db, Result<Identity>) {
    if id in db.users && db.users[id].revision == expected
       && Owner in db.users[id].value.roles && Owner !in identity.roles && |Owners(db)| <= 1
    then (db, Refused(DependencyConflict))
    else CompareAndSetUser(db, id, identity, expected)
  }

  predicate OwnsResources(db: Db, id: Id) {
    || (exists s :: s in db.sessions && db.sessions[s].value.ownerId == Some(id))
    || (exists c :: c in db.channels && db.channels[c].value.ownerId == Some(id))
  }

  function DeleteUserPreservingOwner(db: Db, id: Id, expected: nat, lastSeenBefore: Option<Millis>):
      (Db, Result<Identity>)
  {
    if id !in db.users then (db, Refused(NotFound))
    else
      var row := db.users[id];
      if row.revision != expected then (db, Refused(RevisionConflict))
      else if lastSeenBefore.Some? && row.value.lastSeenAt > lastSeenBefore.value then (db, Refused(InvalidState))
      else if Owner in row.value.roles && |Owners(db)| <= 1 then (db, Refused(DependencyConflict))
      else if OwnsResources(db, id) then (db, Refused(DependencyConflict))
      else (db.(users := db.users - {id}), Applied(row))
  }

  // ---------------------------------------------------------------- nodes and certificates

  /** The initial certificate must be unrevoked and belong to the node; both inserts succeed or neither. */
  function CreateNode(db: Db, id: Id, node: ClusterNode, serial: Id, certificate: Option<Certificate>):
      (Db, Result<ClusterNode>)
  {
    if certificate.Some? && (certificate.value.nodeId != id || certificate.value.revokedAt.Some?) then (db, Thrown)
    else if id in db.nodes || (certificate.Some? && serial in db.certificates) then (db, Thrown)
    else
      (db.(nodes := db.nodes[id := Versioned(node, 1)],
           certificates := if certificate.Some? then db.certificates[serial := certificate.value] else db.certificates),
       Applied(Versioned(node, 1)))
  }

  predicate Protected(state: NodeState) {
    state.Draining? || state.Revoked?
  }

  function EnsureLocalNode(db: Db, id: Id, node: ClusterNode): (Db, Result<ClusterNode>) {
    if id !in db.nodes then
      (db.(nodes := db.nodes[id := Versioned(node, 1)]), Applied(Versioned(node, 1)))
    else
      var current := db.nodes[id];
      var ensured := node.(state := if Protected(current.value.state) then current.value.state else node.state,
                           createdAt := current.value.createdAt,
                           certificateExpiresAt := if node.certificateExpiresAt.Some? then node.certificateExpiresAt
                                                   else current.value.certificateExpiresAt);
      (db.(nodes := db.nodes[id := Versioned(ensured, current.revision + 1)]),
        Applied(Versioned(ensured, current.revision + 1)))
  }

  datatype ReportedState = ReportOnline | ReportDegraded | ReportDraining
  datatype OperationalState = OperateOnline | OperateDegraded | OperateOffline

  function Reported(s: ReportedState): NodeState {
    match s case ReportOnline => Online case ReportDegraded => Degraded case ReportDraining => Draining
  }

  function Operational(s: OperationalState): NodeState {
    match s case OperateOnline => Online case OperateDegraded => Degraded case OperateOffline => Offline
  }

  function NodeWritten(db: Db, id: Id, node: ClusterNode, expected: nat): (Db, Result<ClusterNode>) {
    var (table, result) := CompareAndSet(db.nodes, id, node, expected);
    (db.(nodes := table), result)
  }

  function RecordHeartbeat(
    db: Db, id: Id, expected: nat, capabilities: Id, reported: ReportedState, expiresAt: Option<Millis>):
      (Db, Result<ClusterNode>)
  {
    if id !in db.nodes then (db, Refused(NotFound))
    else
      var current := db.nodes[id].value;
      NodeWritten(db, id,
                  current.(capabilities := capabilities,
                           state := if Protected(current.state) then current.state else Reported(reported),
                           certificateExpiresAt := if expiresAt.Some? then expiresAt else current.certificateExpiresAt),
                  expected)
  }

  function SetDrain(db: Db, id: Id, expected: nat, draining: bool): (Db, Result<ClusterNode>) {
    if id !in db.nodes then (db, Refused(NotFound))
    else if db.nodes[id].revision != expected then (db, Refused(RevisionConflict))
    else
      var current := db.nodes[id].value;
      if current.state.Revoked? then (db, Refused(InvalidState))
      else NodeWritten(db, id, current.(state := if draining then Draining
        else if current.state.Draining? then Online else current.state), expected)
  }

  function SetOperationalState(db: Db, id: Id, expected: nat, state: OperationalState): (Db, Result<ClusterNode>) {
    if id !in db.nodes then (db, Refused(NotFound))
    else if db.nodes[id].revision != expected then (db, Refused(RevisionConflict))
    else if Protected(db.nodes[id].value.state) then (db, Refused(InvalidState))
    else NodeWritten(db, id, db.nodes[id].value.(state := Operational(state)), expected)
  }

  function CertificatesRevoked(certificates: map<Id, Certificate>, nodeId: Id, at: Millis): map<Id, Certificate> {
    map s | s in certificates ::
      if certificates[s].nodeId == nodeId && certificates[s].revokedAt.None?
        then certificates[s].(revokedAt := Some(at)) else certificates[s]
  }

  function RotateCertificate(db: Db, id: Id, expected: nat, serial: Id, certificate: Certificate, at: Millis):
      (Db, Result<ClusterNode>)
  {
    if certificate.nodeId != id || certificate.revokedAt.Some? then (db, Thrown)
    else if id !in db.nodes then (db, Refused(NotFound))
    else if db.nodes[id].revision != expected then (db, Refused(RevisionConflict))
    else if db.nodes[id].value.state.Revoked? then (db, Refused(InvalidState))
    else if serial in db.certificates then (db, Thrown)
    else
      var (db', result) := NodeWritten(db, id, db.nodes[id].value.(certificateExpiresAt := Some(certificate.expiresAt)),
          expected);
      (db'.(certificates := CertificatesRevoked(db.certificates, id, at)[serial := certificate]), result)
  }

  function BindingsWithdrawn(bindings: map<Id, BindingRow>, nodeId: Id): map<Id, BindingRow> {
    map b | b in bindings ::
      if bindings[b].value.nodeId == nodeId
      then bindings[b].(value := bindings[b].value.(state := Withdrawn), revision := bindings[b].revision + 1)
      else bindings[b]
  }

  function RevokeNode(db: Db, id: Id, expected: nat, at: Millis): (Db, Result<ClusterNode>) {
    if id !in db.nodes then (db, Refused(NotFound))
    else if db.nodes[id].revision != expected then (db, Refused(RevisionConflict))
    else
      var (db', result) := NodeWritten(db, id, db.nodes[id].value.(state := Revoked), expected);
      (db'.(bindings := BindingsWithdrawn(db.bindings, id), certificates := CertificatesRevoked(db.certificates, id,
        at)), result)
  }

  predicate NodeInUse(db: Db, id: Id) {
    exists b :: b in db.bindings && db.bindings[b].value.nodeId == id
  }

  function RemoveNode(db: Db, id: Id, expected: nat): (Db, Result<ClusterNode>) {
    if id !in db.nodes then (db, Refused(NotFound))
    else
      var row := db.nodes[id];
      if row.revision != expected then (db, Refused(RevisionConflict))
      else if !row.value.state.Revoked? then (db, Refused(InvalidState))
      else if NodeInUse(db, id) then (db, Refused(DependencyConflict))
      else (db.(nodes := db.nodes - {id}), Applied(row))
  }

  // ---------------------------------------------------------------- any caller

  datatype CatalogOp =
    | CreatesProvider(id: Id, provider: Provider)
    | SetsProvider(id: Id, provider: Provider, expected: nat)
    | BeginsProviderDeletion(id: Id)
    | FinalizesProviderDeletion(id: Id, expected: nat)
    | CreatesBinding(provider: Provider, id: Id, binding: Binding, expectedProvider: Option<nat>)
    | SetsBinding(id: Id, binding: Binding, expected: nat, allowed: set<BindingState>)
    | BeginsBindingDeletion(id: Id)
    | FinalizesBindingDeletion(id: Id, expected: nat)

  datatype SessionOp =
    | CreatesSession(id: Id, session: Session, grantHash: Id, grant: Grant, expectedChannel: Option<nat>)
    | SetsSession(id: Id, session: Session, expected: nat)
    | TouchesPlayback(id: Id, observedAt: Millis, touchBefore: Millis)
    | BeginsSessionDeletion(id: Id, requireUnpinned: bool, inactiveBefore: Option<Millis>, observedAt: Millis)
    | DeletesSession(id: Id, at: Millis)

  datatype ChannelOp =
    | CreatesChannel(id: Id, channel: Channel)
    | CreatesChannelWithinCapacity(id: Id, channel: Channel, maxTotal: nat, maxPerOwner: nat)
    | SetsChannel(id: Id, channel: Channel, expected: nat)
    | DeletesChannel(id: Id, expected: nat)

  datatype UserOp =
    | CreatesUser(id: Id, identity: Identity)
    | SetsUser(id: Id, identity: Identity, expected: nat)
    | SetsUserPreservingOwner(id: Id, identity: Identity, expected: nat)
    | DeletesUser(id: Id, expected: nat, lastSeenBefore: Option<Millis>)

  datatype NodeOp =
    | CreatesNode(id: Id, node: ClusterNode, serial: Id, certificate: Option<Certificate>)
    | EnsuresLocalNode(id: Id, node: ClusterNode)
    | RecordsHeartbeat(id: Id, expected: nat, capabilities: Id, reported: ReportedState, expiresAt: Option<Millis>)
    | SetsDrain(id: Id, expected: nat, draining: bool)
    | SetsOperationalState(id: Id, expected: nat, state: OperationalState)
    | RotatesCertificate(id: Id, expected: nat, serial: Id, rotated: Certificate, at: Millis)
    | RevokesNode(id: Id, expected: nat, at: Millis)
    | RemovesNode(id: Id, expected: nat)

  datatype Op =
    | OnCatalog(catalog: CatalogOp) | OnSession(session: SessionOp) | OnChannel(channel: ChannelOp)
    | OnUser(user: UserOp) | OnNode(node: NodeOp)

  /** Each family of transactions writes its own tables only. */
  function ApplyCatalog(db: Db, op: CatalogOp): (r: Db)
    ensures r == db.(providers := r.providers, bindings := r.bindings)
  {
    match op
    case CreatesProvider(id, provider) => CreateProvider(db, id, provider).0
    case SetsProvider(id, provider, expected) => CompareAndSetProvider(db, id, provider, expected).0
    case BeginsProviderDeletion(id) => BeginProviderDeletion(db, id).0
    case FinalizesProviderDeletion(id, expected) => FinalizeProviderDeletion(db, id, expected).0
    case CreatesBinding(provider, id, binding, expected) => CreateProviderBinding(db, provider, id, binding, expected).0
    case SetsBinding(id, binding, expected, allowed) => CompareAndSetBinding(db, id, binding, expected, allowed).0
    case BeginsBindingDeletion(id) => BeginBindingDeletion(db, id).0
    case FinalizesBindingDeletion(id, expected) => FinalizeBindingDeletion(db, id, expected).0
  }

  function ApplySession(db: Db, op: SessionOp): (r: Db)
    ensures r == db.(sessions := r.sessions, grants := r.grants)
  {
    match op
    case CreatesSession(id, session, hash, grant, expected) => CreateSession(db, id, session, hash, grant, expected).0
    case SetsSession(id, session, expected) => CompareAndSetSession(db, id, session, expected).0
    case TouchesPlayback(id, observedAt, before) => TouchPlaybackActivity(db, id, observedAt, before).0
    case BeginsSessionDeletion(id, unpinned, before, at) => BeginSessionDeletion(db, id, unpinned, before, at).0
    case DeletesSession(id, at) => DeleteSession(db, id, at)
  }

  function ApplyChannel(db: Db, op: ChannelOp): (r: Db)
    ensures r == db.(channels := r.channels)
  {
    match op
    case CreatesChannel(id, channel) => CreateChannel(db, id, channel).0
    case CreatesChannelWithinCapacity(id, channel, total, perOwner) =>
      CreateChannelWithinCapacity(db, id, channel, total, perOwner).0
    case SetsChannel(id, channel, expected) => CompareAndSetChannel(db, id, channel, expected).0
    case DeletesChannel(id, expected) => DeleteChannel(db, id, expected).0
  }

  function ApplyUser(db: Db, op: UserOp): (r: Db)
    ensures r == db.(users := r.users)
  {
    match op
    case CreatesUser(id, identity) => CreateUser(db, id, identity).0
    case SetsUser(id, identity, expected) => CompareAndSetUser(db, id, identity, expected).0
    case SetsUserPreservingOwner(id, identity, expected) => CompareAndSetUserPreservingOwner(db, id, identity,
      expected).0
    case DeletesUser(id, expected, before) => DeleteUserPreservingOwner(db, id, expected, before).0
  }

  function ApplyNode(db: Db, op: NodeOp): (r: Db)
    ensures r == db.(nodes := r.nodes, certificates := r.certificates, bindings := r.bindings)
    ensures op.RevokesNode? || r.bindings == db.bindings
  {
    match op
    case CreatesNode(id, node, serial, certificate) => CreateNode(db, id, node, serial, certificate).0
    case EnsuresLocalNode(id, node) => EnsureLocalNode(db, id, node).0
    case RecordsHeartbeat(id, expected, capabilities, reported, expiresAt) =>
      RecordHeartbeat(db, id, expected, capabilities, reported, expiresAt).0
    case SetsDrain(id, expected, draining) => SetDrain(db, id, expected, draining).0
    case SetsOperationalState(id, expected, state) => SetOperationalState(db, id, expected, state).0
    case RotatesCertificate(id, expected, serial, certificate, at) =>
      RotateCertificate(db, id, expected, serial, certificate, at).0
    case RevokesNode(id, expected, at) => RevokeNode(db, id, expected, at).0
    case RemovesNode(id, expected) => RemoveNode(db, id, expected).0
  }

  function Apply(db: Db, op: Op): Db {
    match op
    case OnCatalog(o) => ApplyCatalog(db, o)
    case OnSession(o) => ApplySession(db, o)
    case OnChannel(o) => ApplyChannel(db, o)
    case OnUser(o) => ApplyUser(db, o)
    case OnNode(o) => ApplyNode(db, o)
  }

  function ApplyAll(db: Db, ops: seq<Op>): Db
    decreases |ops|
  {
    if ops == [] then db else ApplyAll(Apply(db, ops[0]), ops[1..])
  }
}
