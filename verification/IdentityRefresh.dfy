/** The loop that records a sign-in in the identity document, against concurrent role changes. */
module IdentityRefresh {
  import opened Prelude
  import opened Repository

  datatype Update = Created(identity: Identity) | SignedIn(displayName: Id, at: Millis) | Assigned(roles: set<Role>)

  function Write(u: Update, identity: Identity): Identity {
    match u
    case Created(given) => given
    case SignedIn(name, at) => identity.(displayName := name, lastSeenAt := at)
    case Assigned(roles) => identity.(roles := roles)
  }

  function Fold(log: seq<Update>): Identity
    requires |log| > 0
  {
    var last := log[|log| - 1];
    Write(last, if |log| == 1 then Identity({}, 0, 0) else Fold(log[..|log| - 1]))
  }

  ghost predicate Legal(log: seq<Update>) {
    |log| > 0 && log[0].Created? && forall i :: 0 < i < |log| ==> !log[i].Created?
  }

  /** The roles given at creation or by the last assignment. */
  function Roles(log: seq<Update>): set<Role>
    requires |log| > 0 && log[0].Created?
  {
    var last := log[|log| - 1];
    if last.Created? then last.identity.roles else if last.Assigned? then last.roles else Roles(log[..|log| - 1])
  }

  /** However sign-ins and role changes interleave, the stored roles are the last ones assigned: no sign-in undoes
      them. */
  lemma {:induction false} SignInsKeepRoles(log: seq<Update>)
    requires Legal(log)
    ensures Fold(log).roles == Roles(log)
    decreases |log|
  {
    if |log| > 1 {
      SignInsKeepRoles(log[..|log| - 1]);
    }
  }

  datatype WriteResult = Applied(record: Versioned<Identity>) | RevisionConflict(current: Versioned<Identity>)
  datatype Outcome = Recorded(record: Versioned<Identity>) | Newer(record: Versioned<Identity>) | Conflict

  const MAX_REFRESH_ATTEMPTS := 5

  /** An identity that is not deleted meanwhile: deletions wait for sign-ins of the same identity. */
  class IdentityDocument {
    var row: Option<Versioned<Identity>>
    ghost var log: seq<Update>
    ghost var own: set<nat>

    ghost predicate Valid()
      reads this
    {
      && (row.None? <==> log == [])
      && (row.Some? ==> Legal(log) && row.value == Versioned(Fold(log), |log|))
    }

    twostate predicate OthersOnly()
      reads this
    {
      old(log) <= log && own == old(own)
    }

    twostate predicate OwnLast(u: Update)
      reads this
    {
      old(log) < log && log[|log| - 1] == u && own == old(own) + {|log| - 1}
    }

    constructor ()
      ensures Valid() && row.None?
    {
      row, log, own := None, [], {};
    }

    /** A suspension point: others may have created the identity or had updates accepted. */
    method Suspend()
      requires Valid()
      modifies this
      ensures Valid() && OthersOnly()
    {
    }

    method Create(identity: Identity) returns (created: bool)
      requires Valid()
      modifies this
      ensures Valid() && row.Some?
      ensures if created then OwnLast(Created(identity)) && row.value == Versioned(identity, 1) else OthersOnly()
    {
      Suspend();
      created := row.None?;
      if created {
        row, log, own := Some(Versioned(identity, 1)), [Created(identity)], own + {0};
      }
    }

    method CompareAndSet(identity: Identity, expected: nat, ghost u: Update) returns (r: WriteResult)
      requires Valid() && row.Some? && expected == row.value.revision && !u.Created?
          && identity == Write(u, row.value.value)
      modifies this
      ensures Valid() && row.Some?
      ensures match r
              case Applied(record) => OwnLast(u) && row.value == record && record.value == identity
                && log[..|log| - 1] == old(log)
              case RevisionConflict(current) => OthersOnly() && row.value == current && |log| > |old(log)|
    {
      ghost var read := log;
      Suspend();
      if row.value.revision != expected {
        return WriteResult.RevisionConflict(row.value);
      }
      assert log == read;
      assert (log + [u])[..|log|] == log;
      row, log, own := Some(Versioned(identity, row.value.revision + 1)), log + [u], own + {|log|};
      return WriteResult.Applied(row.value);
    }

    /**
     Creates the identity with the user role, or writes the sign-in over the document read; a document that was seen
     later than this sign-in is left as it is.
     */
    method RefreshAfterLogin(displayName: Id, observedAt: Millis) returns (r: Outcome)
      requires Valid()
      modifies this
      ensures Valid()
      ensures match r
              case Recorded(record) =>
                && (OwnLast(Created(Identity({User}, displayName, observedAt)))
                  || OwnLast(SignedIn(displayName, observedAt)))
                && row == Some(record) && record.value.displayName == displayName
                  && record.value.lastSeenAt == observedAt
              case Newer(record) => OthersOnly() && row == Some(record) && record.value.lastSeenAt >= observedAt
              case Conflict => OthersOnly() && |log| >= |old(log)| + MAX_REFRESH_ATTEMPTS
    {
      Suspend();
      var record := row;
      var attempt := 0;
      while attempt < MAX_REFRESH_ATTEMPTS
        invariant 0 <= attempt <= MAX_REFRESH_ATTEMPTS
        invariant Valid() && OthersOnly() && record == row && |log| >= |old(log)| + attempt
      {
        if record.None? {
          var created := Create(Identity({User}, displayName, observedAt));
          if created {
            return Recorded(Versioned(Identity({User}, displayName, observedAt), 1));
          }
          Suspend();
          record := row;
        }
        var refreshed := record.value.value.(displayName := displayName, lastSeenAt := observedAt);
        var updated := CompareAndSet(refreshed, record.value.revision, SignedIn(displayName, observedAt));
        match updated
        case Applied(written) => return Recorded(written);
        case RevisionConflict(current) =>
          if current.value.lastSeenAt >= observedAt {
            return Newer(current);
          }
          record := Some(current);
        attempt := attempt + 1;
      }
      return Conflict;
    }
  }
}
