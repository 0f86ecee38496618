/**
 Creation and deletion of one provider connection, whose secret lives outside the tables. Each call to a store may fail,
 or commit and then report a failure, while `faulty` is set; a request that throws leaves a state from which a later
 request goes on.
 */
module ProviderCustody {
  import opened Prelude

  datatype Row = Row(secretRef: Id, revision: nat, pending: bool)
  datatype Reason = NotFound | RevisionConflict | InvalidState | DependencyConflict
  datatype Reply = Applied(row: Row) | Refused(reason: Reason) | Raised
  datatype Lookup = Found(row: Row) | Missing | Unreadable
  datatype Outcome = Done | Conflict | Failed

  const MAX_PROVIDER_WRITE_ATTEMPTS := 5

  class Provider {
    const secretRef: Id
    /** Whether the provider keeps a secret at all; a delegated one does not. */
    const credentialed: bool
    var faulty: bool
    var row: Option<Row>
    var stored: bool            // the secret store holds `secretRef`
    var dependents: bool        // some session or binding refers to the provider

    constructor (secretRef: Id, credentialed: bool, faulty: bool)
      ensures Valid() && row.None? && !stored && this.secretRef == secretRef && this.credentialed == credentialed
          && this.faulty == faulty
    {
      this.secretRef, this.credentialed, this.faulty := secretRef, credentialed, faulty;
      row, stored, dependents := None, false, false;
    }

    /** A live provider has its secret; only a provider without dependents is marked, and nothing comes to refer to it
        then. */
    ghost predicate Valid()
      reads this
    {
      && (row.Some? ==> row.value.secretRef == secretRef && row.value.revision > 0)
      && (row.Some? && !row.value.pending && credentialed ==> stored)
      && (dependents ==> row.Some? && !row.value.pending)
      && (stored ==> credentialed)
    }

    /** Once marked, the row only waits to be removed. */
    twostate predicate Onward()
      reads this
    {
      && faulty == old(faulty) && dependents == old(dependents)
      && (old(row).None? ==> row.None?)
      && (old(row).Some? && old(row).value.pending ==> row.None? || row == old(row))
    }

    /** Whether a call fails before, or only after, taking effect. */
    method Trouble() returns (before: bool, after: bool)
      ensures before || after ==> faulty
    {
      before, after := *, *;
      before, after := before && faulty, after && faulty;
    }

    // -------------------------------------------------------------- the stores

    method PutSecret() returns (ok: bool)
      requires Valid() && credentialed
      modifies `stored
      ensures Valid() && (ok ==> stored) && (!ok ==> faulty)
    {
      var before, after := Trouble();
      if before {
        return false;
      }
      stored := true;
      return !after;
    }

    method DeleteSecret() returns (ok: bool)
      requires Valid() && (row.Some? ==> row.value.pending)
      modifies `stored
      ensures Valid() && (ok ==> !stored) && (!ok ==> faulty) && (stored ==> old(stored))
    {
      var before, after := Trouble();
      if before {
        return false;
      }
      stored := false;
      return !after;
    }

    method CreateProvider() returns (reply: Reply)
      requires Valid() && row.None? && (credentialed ==> stored)
      modifies `row
      ensures Valid() && (row.None? || row == Some(Row(secretRef, 1, false)))
      ensures reply.Raised? || (row.Some? && reply == Applied(row.value))
      ensures reply.Raised? ==> faulty
    {
      var before, after := Trouble();
      if before {
        return Raised;
      }
      row := Some(Row(secretRef, 1, false));
      return if after then Raised else Applied(row.value);
    }

    method GetProvider() returns (found: Lookup)
      requires Valid()
      ensures match found case Found(r) => row == Some(r) && !r.pending case Missing => row.None?
          || row.value.pending case Unreadable => faulty
    {
      var unreadable, _ := Trouble();
      if unreadable {
        return Unreadable;
      }
      return if row.Some? && !row.value.pending then Found(row.value) else Missing;
    }

    method BeginProviderDeletion() returns (reply: Reply)
      requires Valid()
      modifies `row
      ensures Valid() && Onward()
      ensures match reply
              case Applied(r) => row == Some(r) && r.pending
              case Refused(reason) =>
                row == old(row) && if reason.NotFound? then row.None?
                  else reason.DependencyConflict? && row.Some? && !row.value.pending && dependents
              case Raised => faulty && (row == old(row) || (row.Some? && row.value.pending))
    {
      var before, after := Trouble();
      if before {
        return Raised;
      }
      if row.None? {
        return Refused(NotFound);
      }
      if !row.value.pending {
        if dependents {
          return Refused(DependencyConflict);
        }
        row := Some(row.value.(pending := true, revision := row.value.revision + 1));
      }
      return if after then Raised else Applied(row.value);
    }

    method FinalizeProviderDeletion(expected: nat) returns (reply: Reply)
      requires Valid() && !dependents
      modifies `row
      ensures Valid() && Onward()
      ensures match reply
              case Applied(_) => row.None?
              case Refused(reason) =>
                row == old(row)
                && (match reason
                    case NotFound => row.None?
                    case RevisionConflict => row.Some? && row.value.revision != expected
                    case InvalidState => row.Some? && !row.value.pending
                    case DependencyConflict => false)
              case Raised => faulty && (row == old(row) || row.None?)
    {
      var before, after := Trouble();
      if before {
        return Raised;
      }
      if row.None? {
        return Refused(NotFound);
      }
      if row.value.revision != expected {
        return Refused(RevisionConflict);
      }
      if !row.value.pending {
        return Refused(InvalidState);
      }
      var removed := row.value;
      row := None;
      return if after then Raised else Applied(removed);
    }

    // -------------------------------------------------------------- the service

    /**
     Stages the secret, inserts the row, and on an exception keeps the secret exactly when the row may name it: without
     faults the provider exists afterwards, and whatever happens no live provider lacks its secret.
     */
    method Create() returns (outcome: Outcome)
      requires Valid() && row.None? && !stored
      modifies `row, `stored
      ensures Valid() && (row.None? || row == Some(Row(secretRef, 1, false)))
      ensures outcome.Done? ==> row.Some? && (credentialed ==> stored)
      ensures outcome.Done? || (outcome.Failed? && faulty)
    {
      if credentialed {
        var put := PutSecret();
        if !put {
          return Failed;
        }
      }
      var reply := CreateProvider();
      if reply.Applied? {
        return Done;
      }
      var current := GetProvider();
      if current.Unreadable? {
        return Failed;
      }
      if current.Found? && current.row.secretRef == secretRef {
        return Done;
      }
      if credentialed {
        var _ := DeleteSecret();
      }
      return Failed;
    }

    method BeginDeletion() returns (outcome: Outcome, pending: Option<Row>)
      requires Valid()
      modifies `row
      ensures Valid() && Onward()
      ensures outcome.Done? ==> pending == row && (row.Some? ==> row.value.pending) && (row.None? ==> old(row).None?)
      ensures outcome.Conflict? ==> row == old(row) && dependents
      ensures outcome.Failed? ==> faulty && (row == old(row) || (row.Some? && row.value.pending))
    {
      var reply := BeginProviderDeletion();
      match reply
      case Applied(r) => return Done, Some(r);
      case Refused(NotFound) => return Done, None;
      case Refused(_) => return Conflict, None;
      case Raised => return Failed, None;
    }

    method FinalizeDeletion(initialRevision: nat) returns (outcome: Outcome)
      requires Valid() && !dependents && (row.Some? ==> row.value.pending && row.value.revision == initialRevision)
      modifies `row
      ensures Valid() && Onward()
      ensures outcome.Done? ==> row.None?
      ensures outcome.Done? || faulty
    {
      var expected := initialRevision;
      var attempt := 0;
      while attempt < MAX_PROVIDER_WRITE_ATTEMPTS
        invariant Valid() && Onward() && (row.Some? ==> row.value.pending && row.value.revision == expected)
        invariant attempt > 0 ==> faulty
      {
        var reply := FinalizeProviderDeletion(expected);
        if reply.Applied? || (reply.Refused? && reply.reason.NotFound?) {
          return Done;
        }
        if reply.Refused? && reply.reason.DependencyConflict? {
          return Conflict;
        }
        // find out whether the removal committed or has to be tried again
        var outcome, pending := BeginDeletion();
        if !outcome.Done? {
          return outcome;
        }
        if pending.None? {
          return Done;
        }
        expected := pending.value.revision;
        attempt := attempt + 1;
      }
      return Conflict;
    }

    /**
     Deletes the provider: mark, erase the secret, remove the row. From every state an earlier attempt can have left, a
     request without faults ends with row and secret gone unless something still refers to the provider, which it then
     leaves untouched.
     */
    method Delete() returns (outcome: Outcome)
      requires Valid() && (row.None? ==> !stored)
      modifies `row, `stored
      ensures Valid() && Onward() && (row.None? ==> !stored)
      ensures outcome.Done? ==> row.None? && !stored
      ensures !faulty && !old(dependents) ==> outcome.Done?
      ensures old(dependents) ==> !outcome.Done? && row == old(row) && stored == old(stored)
    {
      var begun, pending := BeginDeletion();
      if !begun.Done? {
        return begun;
      }
      if pending.None? {
        return Done;
      }
      var erased := DeleteSecret();
      if !erased {
        return Failed;
      }
      outcome := FinalizeDeletion(pending.value.revision);
    }
  }

  /** However many requests failed on the way, the first one without faults finishes the deletion. */
  method DeleteUntilDone(p: Provider, failures: nat) returns (outcome: Outcome)
    requires p.Valid() && p.row.Some? && !p.dependents
    modifies p
    ensures p.row.None? && !p.stored && outcome.Done?
  {
    p.faulty := true;
    for i := 0 to failures
      invariant p.Valid() && !p.dependents && (p.row.None? ==> !p.stored)
    {
      var _ := p.Delete();
    }
    p.faulty := false;
    outcome := p.Delete();
  }
}
