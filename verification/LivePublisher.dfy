/**
 The publisher slot of a live channel. Replacing the credential, claiming the slot and reconciling it with the paths
 that are really being published all rewrite one channel document through compare-and-set loops. As with segment jobs,
 each accepted write is named by the update it stands for.
 */
module LivePublisher {
  import opened Prelude

  datatype PublisherState = Offline | Online | Reconnecting | Error
  datatype Channel = Channel(state: PublisherState, tokenHash: Id, replacementHash: Option<Id>, metadata: Id)

  datatype Update =
    | Create(tokenHash: Id, metadata: Id)
    | Issue(tokenHash: Id)
    | Claim(suppliedHash: Id)
    | Reconcile(online: bool)
    | Describe(metadata: Id)      // sanitized addresses, a normalization profile

  function ReconciledState(online: bool): PublisherState {
    if online then Online else Offline
  }

  function Write(u: Update, c: Channel): Channel {
    match u
    case Create(hash, metadata) => Channel(Offline, hash, None, metadata)
    case Issue(hash) => c.(replacementHash := Some(hash))
    case Claim(hash) =>
      if c.replacementHash == Some(hash) then Channel(Reconnecting, hash, None, c.metadata)
        else c.(state := Reconnecting)
    case Reconcile(online) => c.(state := ReconciledState(online))
    case Describe(metadata) => c.(metadata := metadata)
  }

  datatype Rejection = UnknownToken | ReplacementPending | ActivePublisher | MissingChannel | Conflict

  /** The decision of one round of the claim loop, in its order. */
  function Refusal(c: Channel, hash: Id): Option<Rejection> {
    var replacementMatches := c.replacementHash == Some(hash);
    var primaryMatches := c.tokenHash == hash;
    if !replacementMatches && !primaryMatches then Some(UnknownToken)
    else if primaryMatches && c.replacementHash.Some? then Some(ReplacementPending)
    else if !replacementMatches && (c.state.Online? || c.state.Reconnecting?) then Some(ActivePublisher)
    else None
  }

  /** What a caller has checked about the document its write is based on. */
  predicate Permitted(u: Update, c: Channel) {
    match u
    case Create(_, _) => false
    case Claim(hash) => Refusal(c, hash).None?
    case Reconcile(online) => c.state != ReconciledState(online)
    case _ => true
  }

  function Fold(log: seq<Update>): Channel
    requires |log| > 0
  {
    var last := log[|log| - 1];
    Write(last, if |log| == 1 then Channel(Offline, 0, None, 0) else Fold(log[..|log| - 1]))
  }

  ghost predicate Legal(log: seq<Update>) {
    && |log| > 0 && log[0].Create?
    && forall i :: 0 < i < |log| ==> Permitted(log[i], Fold(log[..i]))
  }

  lemma FoldAppends(log: seq<Update>, u: Update)
    requires Legal(log) && Permitted(u, Fold(log))
    ensures Legal(log + [u]) && Fold(log + [u]) == Write(u, Fold(log))
  {
    var longer := log + [u];
    assert longer[..|longer| - 1] == log;
    forall i | 0 < i < |longer|
      ensures Permitted(longer[i], Fold(longer[..i]))
    {
      if i < |log| {
        assert longer[..i] == log[..i];
      } else {
        assert longer[..i] == log;
      }
    }
  }

  lemma StepOfLog(log: seq<Update>, i: nat)
    requires Legal(log) && 0 < i < |log|
    ensures Permitted(log[i], Fold(log[..i])) && Fold(log[..i + 1]) == Write(log[i], Fold(log[..i]))
  {
    assert log[..i + 1][..i] == log[..i];
  }

  // ---------------------------------------------------------------- the newest credential

  /** The token of the last creation or issue. */
  function Newest(log: seq<Update>): Id
    requires |log| > 0 && log[0].Create?
  {
    var last := log[|log| - 1];
    if last.Create? || last.Issue? then last.tokenHash else Newest(log[..|log| - 1])
  }

  function Expected(c: Channel): Id {
    if c.replacementHash.Some? then c.replacementHash.value else c.tokenHash
  }

  lemma {:induction false} NewestIsExpected(log: seq<Update>, i: nat)
    requires Legal(log) && 0 < i <= |log|
    ensures Expected(Fold(log[..i])) == Newest(log[..i])
    decreases i
  {
    if i > 1 {
      NewestIsExpected(log, i - 1);
      StepOfLog(log, i - 1);
      assert log[..i][..i - 1] == log[..i - 1];
    }
  }

  /** Over every run: a claim is accepted only with the credential most recently issued at that moment. */
  lemma AcceptedClaimCarriesNewest(log: seq<Update>, i: nat)
    requires Legal(log) && 0 < i < |log| && log[i].Claim?
    ensures log[i].suppliedHash == Newest(log[..i])
  {
    NewestIsExpected(log, i);
    StepOfLog(log, i);
  }

  predicate Frees(u: Update) {
    u.Issue? || u == Reconcile(false)
  }

  /** After an accepted claim the slot stays taken until it is freed. */
  lemma {:induction false} SlotStaysTaken(log: seq<Update>, i: nat, j: nat)
    requires Legal(log) && 0 < i < j <= |log| && log[i].Claim?
    requires forall k :: i < k < j ==> !Frees(log[k])
    ensures Fold(log[..j]).replacementHash.None? && (Fold(log[..j]).state.Reconnecting? || Fold(log[..j]).state.Online?)
    decreases j
  {
    StepOfLog(log, j - 1);
    if j == i + 1 {
      AcceptedClaimCarriesNewest(log, i);
    } else {
      SlotStaysTaken(log, i, j - 1);
    }
  }

  /** Over every run: one publisher at a time, unless the path was seen offline or a new credential was issued. */
  lemma ClaimsAreSeparated(log: seq<Update>, i: nat, j: nat)
    requires Legal(log) && 0 < i < j < |log| && log[i].Claim? && log[j].Claim?
    ensures exists k :: i < k < j && Frees(log[k])
  {
    if forall k :: i < k < j ==> !Frees(log[k]) {
      SlotStaysTaken(log, i, j);
      StepOfLog(log, j);
    }
  }

  /** With distinct tokens, the slot is given exactly to the newest credential while it is free or being replaced. */
  lemma ClaimIsGranted(log: seq<Update>, hash: Id)
    requires Legal(log) && Fold(log).replacementHash != Some(Fold(log).tokenHash)
    ensures Permitted(Claim(hash), Fold(log)) <==>
      && hash == Newest(log)
      && (Fold(log).replacementHash.Some? || Fold(log).state.Offline? || Fold(log).state.Error?)
  {
    NewestIsExpected(log, |log|);
    assert log[..|log|] == log;
  }

  // ---------------------------------------------------------------- the document and the loops over it

  const MAX_LIVE_CHANNEL_WRITE_ATTEMPTS := 5

  datatype WriteResult = Applied(record: Versioned<Channel>) | NotFound | RevisionConflict(current: Versioned<Channel>)
  datatype Replaced = Issued(channel: Channel) | ChannelNotFound | Contended
  datatype Verdict = Accepted | Rejected(reason: Rejection)

  class ChannelDocument {
    const path: Id
    const ingestPath: Option<Id>
    const normalize: bool
    var row: Option<Versioned<Channel>>
    /** Every update ever accepted, in order, and the positions of those accepted for the caller at hand. */
    ghost var log: seq<Update>
    ghost var own: set<nat>

    /** The stored channel is the sequential application of the accepted updates; a deleted channel does not return. */
    ghost predicate Valid()
      reads this
    {
      Legal(log) && (row.Some? ==> row.value == Versioned(Fold(log), |log|))
    }

    twostate predicate OthersOnly()
      reads this
    {
      old(log) <= log && own == old(own)
    }

    twostate predicate OwnLast(u: Update)
      reads this
    {
      old(log) < log && log[|log| - 1] == u && own == old(own) + {|log| - 1}
    }

    constructor (path: Id, ingestPath: Option<Id>, tokenHash: Id, metadata: Id)
      ensures Valid() && log == [Create(tokenHash, metadata)] && row
          == Some(Versioned(Channel(Offline, tokenHash, None, metadata), 1))
      ensures this.path == path && this.ingestPath == ingestPath && normalize == ingestPath.Some?
    {
      this.path, this.ingestPath, normalize := path, ingestPath, ingestPath.Some?;
      row := Some(Versioned(Channel(Offline, tokenHash, None, metadata), 1));
      log, own := [Create(tokenHash, metadata)], {0};
    }

    /** A suspension point: its callers know only that others may have had updates accepted, or the channel deleted. */
    method Suspend()
      requires Valid()
      modifies this
      ensures Valid() && OthersOnly()
    {
    }

    method Read() returns (record: Option<Versioned<Channel>>)
      requires Valid()
      modifies this
      ensures Valid() && OthersOnly() && record == row
    {
      Suspend();
      record := row;
    }

    /** The conditional UPDATE, some time after the document was read. */
    method CompareAndSet(channel: Channel, expected: nat, ghost u: Update) returns (r: WriteResult)
      requires Valid() && row.Some? && expected == row.value.revision
      requires Permitted(u, row.value.value) && channel == Write(u, row.value.value)
      modifies this
      ensures Valid()
      ensures match r
              case Applied(record) => OwnLast(u) && row == Some(record) && record.value == channel
                && log[..|log| - 1] == old(log)
              case NotFound => OthersOnly() && row.None?
              case RevisionConflict(current) => OthersOnly() && row == Some(current) && |log| > |old(log)|
    {
      ghost var read := log;
      Suspend();
      if row.None? {
        return NotFound;
      }
      if row.value.revision != expected {
        return RevisionConflict(row.value);
      }
      assert log == read;
      FoldAppends(log, u);
      row, log, own := Some(Versioned(channel, row.value.revision + 1)), log + [u], own + {|log|};
      return Applied(row.value);
    }

    /** Issues a new credential beside the current one; gives up only after as many updates by others as attempts. */
    method ReplacePublisher(replacementHash: Id) returns (r: Replaced)
      requires Valid()
      modifies this
      ensures Valid()
      ensures match r
              case Issued(channel) => OwnLast(Issue(replacementHash)) && row.Some? && row.value.value == channel
              case ChannelNotFound => OthersOnly() && row.None?
              case Contended => OthersOnly() && |log| >= |old(log)| + MAX_LIVE_CHANNEL_WRITE_ATTEMPTS
    {
      var stored := Read();
      if stored.None? {
        return ChannelNotFound;
      }
      var attempt := 0;
      while attempt < MAX_LIVE_CHANNEL_WRITE_ATTEMPTS
        invariant 0 <= attempt <= MAX_LIVE_CHANNEL_WRITE_ATTEMPTS
        invariant Valid() && OthersOnly() && stored.Some? && stored == row && |log| >= |old(log)| + attempt
      {
        var next := stored.value.value.(replacementHash := Some(replacementHash));
        var result := CompareAndSet(next, stored.value.revision, Issue(replacementHash));
        match result
        case Applied(record) => return Issued(record.value);
        case NotFound => return ChannelNotFound;
        case RevisionConflict(current) => stored := Some(current);
        attempt := attempt + 1;
      }
      return Contended;
    }

    /** What a verdict on a claim says about the document it leaves. */
    twostate predicate ClaimDecided(hash: Id, v: Verdict)
      reads this
    {
      match v
      case Accepted => OwnLast(Claim(hash)) && row.Some? && row.value.value.state.Reconnecting?
      case Rejected(MissingChannel) => OthersOnly() && row.None?
      case Rejected(Conflict) => OthersOnly() && (row.None? || |log| >= |old(log)| + MAX_LIVE_CHANNEL_WRITE_ATTEMPTS)
      case Rejected(reason) => OthersOnly() && row.Some? && Refusal(row.value.value, hash) == Some(reason)
    }

    /** Takes the slot for a credential, or says why not. */
    method ClaimPublisherSlot(suppliedHash: Id) returns (v: Verdict)
      requires Valid()
      modifies this
      ensures Valid()
      ensures ClaimDecided(suppliedHash, v)
    {
      var stored := Read();
      var attempt := 0;
      while stored.Some? && attempt < MAX_LIVE_CHANNEL_WRITE_ATTEMPTS
        invariant 0 <= attempt <= MAX_LIVE_CHANNEL_WRITE_ATTEMPTS
        invariant Valid() && OthersOnly() && stored == row && |log| >= |old(log)| + attempt
      {
        var channel := stored.value.value;
        var replacementMatches := channel.replacementHash == Some(suppliedHash);
        var primaryMatches := suppliedHash == channel.tokenHash;
        if !replacementMatches && !primaryMatches {
          return Rejected(UnknownToken);
        }
        if primaryMatches && channel.replacementHash.Some? {
          return Rejected(ReplacementPending);
        }
        if !replacementMatches && (channel.state.Online? || channel.state.Reconnecting?) {
          return Rejected(ActivePublisher);
        }
        var next := if replacementMatches then channel.(tokenHash := suppliedHash, replacementHash := None)
            else channel;
        var result := CompareAndSet(next.(state := Reconnecting), stored.value.revision, Claim(suppliedHash));
        match result
        case Applied(_) => return Accepted;
        case NotFound => return Rejected(MissingChannel);
        case RevisionConflict(current) => stored := Some(current);
        attempt := attempt + 1;
      }
      return Rejected(Conflict);
    }

    /** One listed channel of the reconciliation: a single attempt, skipped on any conflict. */
    method ReconcilePublisherPath(readyPaths: set<Id>) returns (written: bool)
      requires Valid()
      modifies this
      ensures Valid()
      ensures
        var online := (if ingestPath.Some? then ingestPath.value else path) in readyPaths;
        if written then OwnLast(Reconcile(online)) && row.Some? && row.value.value.state == ReconciledState(online)
        else OthersOnly() && (row.Some? && row.value.value.state != ReconciledState(online) ==> |log| > |old(log)|)
    {
      written := false;
      var stored := Read();
      if stored.None? {
        return;
      }
      var online := (if ingestPath.Some? then ingestPath.value else path) in readyPaths;
      var state := if online then Online else Offline;
      if stored.value.value.state != state {
        var result := CompareAndSet(stored.value.value.(state := state), stored.value.revision, Reconcile(online));
        written := result.Applied?;
      }
    }
  }

  datatype Credential = NoCredential | PublishUser(hash: Id) | OtherUser
  datatype Decision = NormalizedOutput | Denied | Submitted(document: nat, verdict: Verdict)

  predicate Granted(d: Decision) {
    d.NormalizedOutput? || (d.Submitted? && d.verdict.Accepted?)
  }

  function IngestPath(d: ChannelDocument): Id {
    if d.ingestPath.Some? then d.ingestPath.value else d.path
  }

  /** The first listed channel that ingests on a path. */
  ghost predicate Ingests(documents: seq<ChannelDocument>, path: Id, i: nat)
    reads documents
  {
    && i < |documents| && documents[i].row.Some? && IngestPath(documents[i]) == path
    && forall k :: 0 <= k < i ==> documents[k].row.None? || IngestPath(documents[k]) != path
  }

  predicate KnowsToken(row: Option<Versioned<Channel>>, hash: Id) {
    row.Some? && (hash == row.value.value.tokenHash || Some(hash) == row.value.value.replacementHash)
  }

  /**
   Authorization of a publish request. FFmpeg may publish a normalized output path over the internal listener without a
   credential; everybody else names an ingest path, knows one of its tokens and must win the claim of that channel.
   */
  method AuthorizePublish(documents: seq<ChannelDocument>, path: Id, internalRtsp: bool, credential: Credential)
      returns (r: Decision)
    requires forall d :: d in documents ==> d.Valid()
    modifies documents
    ensures forall d :: d in documents ==> d.Valid()
    ensures internalRtsp && credential.NoCredential? ==>
      (r.NormalizedOutput? <==>
        exists i :: 0 <= i < |documents| && old(documents[i].row).Some? && documents[i].normalize
          && documents[i].path == path)
    ensures r.Submitted? <==>
      && credential.PublishUser?
      && exists i: nat :: old(Ingests(documents, path, i)) && KnowsToken(old(documents[i].row), credential.hash)
    ensures r.Submitted? ==>
          old(Ingests(documents, path, r.document)) && documents[r.document].ClaimDecided(credential.hash, r.verdict)
    ensures r.NormalizedOutput? ==> internalRtsp && credential.NoCredential?
  {
    if internalRtsp && credential.NoCredential? {
      for i := 0 to |documents|
        invariant forall k :: 0 <= k < i ==>
              documents[k].row.None? || !documents[k].normalize || documents[k].path != path
      {
        if documents[i].row.Some? && documents[i].normalize && documents[i].path == path {
          return NormalizedOutput;
        }
      }
      return Denied;
    }
    if !credential.PublishUser? {
      return Denied;
    }
    for i := 0 to |documents|
      invariant forall k :: 0 <= k < i ==> documents[k].row.None? || IngestPath(documents[k]) != path
    {
      if documents[i].row.Some? && IngestPath(documents[i]) == path {
        assert Ingests(documents, path, i);
        if !KnowsToken(documents[i].row, credential.hash) {
          return Denied;
        }
        var verdict := documents[i].ClaimPublisherSlot(credential.hash);
        return Submitted(i, verdict);
      }
    }
    return Denied;
  }
}
