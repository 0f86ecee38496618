/**
 Browser credentials. A sign-in leaves a secret in the secret store, a settings row that names it, and a session in
 memory. The operations on them run one at a time; within one, every call to a store may fail or commit and then fail,
 and the process may die between any two calls. The row is written before the secret and removed after it.
 */
module BrowserCredentials {
  import opened Prelude

  /** The row, the secret and the session of one sign-in share the hash of its token as their key. */
  datatype Row = Row(identityId: Id, expiresAt: Millis)
  datatype State = State(rows: map<Id, Row>, secrets: set<Id>, sessions: map<Id, Row>)

  /** Every stored secret is named by a row, and every live session has its row and its secret. */
  predicate WriteAhead(s: State) {
    && s.secrets <= s.rows.Keys
    && forall t :: t in s.sessions ==> t in s.rows && t in s.secrets && s.rows[t] == s.sessions[t]
  }

  lemma NothingOrphaned(s: State)
    requires WriteAhead(s)
    ensures (forall t :: t in s.rows ==> t in s.sessions) ==> s.rows.Keys == s.secrets == s.sessions.Keys
  {
    if forall t :: t in s.rows ==> t in s.sessions {
      assert s.rows.Keys <= s.sessions.Keys <= s.secrets <= s.rows.Keys;
    }
  }

  class AuthService {
    /** Whether the stores may misbehave at present. */
    var faulty: bool
    var rows: map<Id, Row>
    var secrets: set<Id>
    var sessions: map<Id, Row>
    /** Settings rows under the prefix of credentials that do not parse; none of them is the service's own. */
    var malformed: set<Id>
    /** The states after every single call since the installation, the present one last. */
    ghost var trace: seq<State>

    ghost function Now(): State
      reads this
    {
      State(rows, secrets, sessions)
    }

    ghost predicate Valid()
      reads this
    {
      && |trace| > 0 && trace[|trace| - 1] == Now()
      && forall i :: 0 <= i < |trace| ==> WriteAhead(trace[i])
    }

    twostate predicate Continues()
      reads this
    {
      old(trace) <= trace
    }

    constructor ()
      ensures Valid() && rows == map[] && secrets == {} && sessions == map[] && malformed == {}
    {
      faulty := true;
      rows, secrets, sessions, malformed := map[], {}, map[], {};
      trace := [State(map[], {}, map[])];
    }

    // -------------------------------------------------------------- single calls

    method Outcome() returns (ok: bool, committed: bool)
      ensures (ok ==> committed) && (!faulty ==> ok)
    {
      ok, committed := *, *;
      if !faulty {
        ok := true;
      }
      committed := committed || ok;
    }

    /** Reading the rows back throws if one of them does not parse. */
    method ReadRows() returns (ok: bool)
      ensures (ok ==> malformed == {}) && (!faulty ==> ok == (malformed == {}))
    {
      var committed;
      ok, committed := Outcome();
      ok := ok && malformed == {};
    }

    method PutRow(token: Id, row: Row) returns (ok: bool)
      requires Valid() && token !in sessions
      modifies `rows, `trace
      ensures Valid() && Continues() && (ok ==> rows == old(rows)[token := row]) && (!faulty ==> ok)
      ensures rows == old(rows) || rows == old(rows)[token := row]
    {
      var committed;
      ok, committed := Outcome();
      if committed {
        rows := rows[token := row];
      }
      trace := trace + [Now()];
    }

    method PutSecret(token: Id) returns (ok: bool)
      requires Valid() && token in rows
      modifies `secrets, `trace
      ensures Valid() && Continues() && (ok ==> token in secrets) && (!faulty ==> ok)
      ensures (secrets == old(secrets) || secrets == old(secrets) + {token})
    {
      var committed;
      ok, committed := Outcome();
      if committed {
        secrets := secrets + {token};
      }
      trace := trace + [Now()];
    }

    method SetSession(token: Id, row: Row)
      requires Valid() && token in rows && rows[token] == row && token in secrets
      modifies `sessions, `trace
      ensures Valid() && Continues() && sessions == old(sessions)[token := row]
    {
      sessions := sessions[token := row];
      trace := trace + [Now()];
    }

    method DropSession(token: Id)
      requires Valid()
      modifies `sessions, `trace
      ensures Valid() && Continues() && sessions == old(sessions) - {token}
    {
      sessions := sessions - {token};
      trace := trace + [Now()];
    }

    method DeleteSecret(token: Id) returns (ok: bool)
      requires Valid() && token !in sessions
      modifies `secrets, `trace
      ensures Valid() && Continues() && (ok ==> token !in secrets) && (!faulty ==> ok)
      ensures (secrets == old(secrets) || secrets == old(secrets) - {token})
    {
      var committed;
      ok, committed := Outcome();
      if committed {
        secrets := secrets - {token};
      }
      trace := trace + [Now()];
    }

    method DeleteRow(token: Id) returns (ok: bool)
      requires Valid() && token !in sessions && token !in secrets
      modifies `rows, `trace
      ensures Valid() && Continues() && (ok ==> token !in rows) && (!faulty ==> ok)
          && (rows == old(rows) || rows == old(rows) - {token})
    {
      var committed;
      ok, committed := Outcome();
      if committed {
        rows := rows - {token};
      }
      trace := trace + [Now()];
    }

    /** The process dies: sessions are in memory only. */
    method Restart()
      requires Valid()
      modifies `sessions, `trace
      ensures Valid() && Continues() && sessions == map[] && rows == old(rows) && secrets == old(secrets)
    {
      sessions := map[];
      trace := trace + [Now()];
    }

    // -------------------------------------------------------------- the operations

    /** Only the credential of one token may have gone. */
    twostate predicate OnlyLost(token: Id)
      reads this
    {
      && (rows == old(rows) || rows == old(rows) - {token})
      && (secrets == old(secrets) || secrets == old(secrets) - {token})
    }

    /** The secret first, the row that names it last. */
    method DeletePersisted(token: Id) returns (ok: bool)
      requires Valid() && token !in sessions
      modifies `rows, `secrets, `trace
      ensures Valid() && Continues() && OnlyLost(token)
      ensures (ok ==> token !in rows && token !in secrets) && (!faulty ==> ok)
    {
      ok := DeleteSecret(token);
      if ok {
        ok := DeleteRow(token);
      }
    }

    /** The credential part of a sign-in, under a token nobody used before. */
    method Login(token: Id, identityId: Id, expiresAt: Millis) returns (ok: bool)
      requires Valid() && token !in rows && token !in secrets && token !in sessions
      modifies `rows, `secrets, `sessions, `trace
      ensures Valid() && Continues() && (!faulty ==> ok)
      ensures ok ==> sessions == old(sessions)[token := Row(identityId, expiresAt)] && token in rows && token in secrets
      ensures !ok ==> sessions == old(sessions) && token !in sessions
      ensures forall t :: t != token ==> Get(rows, t) == Get(old(rows), t) && (t in secrets <==> t in old(secrets))
    {
      var row := Row(identityId, expiresAt);
      ok := PutRow(token, row);
      if ok {
        ok := PutSecret(token);
        if ok {
          SetSession(token, row);
        }
      }
      if !ok {
        var _ := DeletePersisted(token);
      }
    }

    /** The session goes first, whatever the stores then do with its credential. */
    method EndSession(token: Id)
      requires Valid()
      modifies `rows, `secrets, `sessions, `trace
      ensures Valid() && Continues() && sessions == old(sessions) - {token} && OnlyLost(token)
      ensures !faulty ==> token !in rows && token !in secrets
    {
      DropSession(token);
      var _ := DeletePersisted(token);
    }

    /** The session goes whatever the stores do; what they keep is left to a later cleanup. */
    method Logout(token: Id)
      requires Valid()
      modifies `rows, `secrets, `sessions, `trace
      ensures Valid() && Continues() && sessions == old(sessions) - {token} && OnlyLost(token)
      ensures !faulty && token in old(sessions) ==> token !in rows && token !in secrets
    {
      if token in sessions {
        EndSession(token);
      } else {
        DropSession(token);
      }
    }

    twostate predicate Kept(token: Id)
      reads this
    {
      && (token in old(sessions) ==> token in sessions && sessions[token] == old(sessions)[token])
      && Get(rows, token) == Get(old(rows), token) && (token in secrets <==> token in old(secrets))
    }

    method EndExpiredSessions(now: Millis)
      requires Valid()
      modifies `rows, `secrets, `sessions, `trace
      ensures Valid() && Continues()
      ensures forall t :: t in sessions <==> t in old(sessions) && old(sessions)[t].expiresAt > now
      ensures forall t :: t in sessions ==> Kept(t)
      ensures rows.Keys <= old(rows).Keys && secrets <= old(secrets)
    {
      var left := sessions.Keys;
      while left != {}
        invariant Valid() && Continues() && left <= sessions.Keys
        invariant forall t :: t in sessions <==> t in old(sessions) && (t in left || old(sessions)[t].expiresAt > now)
        invariant forall t :: t in sessions ==> Kept(t)
        invariant rows.Keys <= old(rows).Keys && secrets <= old(secrets)
        decreases |left|
      {
        var t :| t in left;
        left := left - {t};
        if sessions[t].expiresAt <= now {
          EndSession(t);
        }
      }
    }

    /** Throws before it erases anything if the rows cannot be read. */
    method EraseOrphans() returns (ok: bool)
      requires Valid()
      modifies `rows, `secrets, `trace
      ensures Valid() && Continues() && (ok ==> malformed == {}) && (!faulty ==> ok == (malformed == {}))
      ensures forall t :: t in sessions ==> Kept(t)
      ensures rows.Keys <= old(rows).Keys && secrets <= old(secrets)
      ensures ok && !faulty ==> rows.Keys == secrets == sessions.Keys
      ensures !ok ==> rows == old(rows) && secrets == old(secrets)
    {
      ok := ReadRows();
      if !ok {
        return;
      }
      var orphans := rows.Keys - sessions.Keys;
      while orphans != {}
        invariant Valid() && Continues() && orphans !! sessions.Keys
        invariant forall t :: t in sessions ==> Kept(t)
        invariant rows.Keys <= old(rows).Keys && secrets <= old(secrets)
        invariant !faulty ==> forall t :: t in rows ==> t in orphans || t in sessions
        decreases |orphans|
      {
        var t :| t in orphans;
        orphans := orphans - {t};
        var _ := DeletePersisted(t);
      }
      NothingOrphaned(Now());
    }

    /** Ends what has expired, then erases what no session owns; live sessions keep everything. */
    method Cleanup(now: Millis) returns (ok: bool)
      requires Valid()
      modifies `rows, `secrets, `sessions, `trace
      ensures Valid() && Continues() && (ok ==> malformed == {}) && (!faulty ==> ok == (malformed == {}))
      ensures forall t :: t in sessions <==> t in old(sessions) && old(sessions)[t].expiresAt > now
      ensures forall t :: t in sessions ==> Kept(t)
      ensures ok && !faulty ==> rows.Keys == secrets == sessions.Keys
      ensures rows.Keys <= old(rows).Keys && secrets <= old(secrets)
    {
      EndExpiredSessions(now);
      ok := EraseOrphans();
    }

    /** At startup, before any sign-in: a recovery that reports success leaves no browser secret and no row. */
    method Recover() returns (ok: bool)
      requires Valid() && sessions == map[]
      modifies `rows, `secrets, `trace
      ensures Valid() && Continues() && (ok ==> rows == map[] && secrets == {} && malformed == {})
      ensures !faulty ==> ok == (malformed == {})
      ensures rows.Keys <= old(rows).Keys && secrets <= old(secrets)
      ensures malformed != {} ==> rows == old(rows) && secrets == old(secrets)
    {
      ok := ReadRows();
      if !ok {
        return;
      }
      var left := rows.Keys;
      while left != {}
        invariant Valid() && Continues() && rows.Keys <= left && rows.Keys <= old(rows).Keys && secrets <= old(secrets)
        decreases |left|
      {
        var t :| t in left;
        ok := DeletePersisted(t);
        if !ok {
          return false;
        }
        left := left - {t};
      }
      assert rows.Keys == {};
      assert secrets == {};
      return true;
    }

    method DropSessionsOf(id: Id)
      requires Valid()
      modifies `sessions, `trace
      ensures Valid() && Continues()
      ensures forall t :: t in sessions <==> t in old(sessions) && old(sessions)[t].identityId != id
    {
      var left := set t | t in sessions && sessions[t].identityId == id;
      while left != {}
        invariant Valid() && Continues()
        invariant left <= sessions.Keys && forall t :: t in left ==> sessions[t].identityId == id
        invariant forall t :: t in sessions <==> t in old(sessions) && (t in left || old(sessions)[t].identityId != id)
        invariant forall t :: t in sessions ==> sessions[t] == old(sessions)[t]
        decreases |left|
      {
        var t :| t in left;
        left := left - {t};
        DropSession(t);
      }
    }

    /** The next call of one erasure: the secret, or the row if the secret is gone. */
    method EraseNext(token: Id, secretGone: bool) returns (ok: bool)
      requires Valid() && token !in sessions && (secretGone ==> token !in secrets)
      modifies `rows, `secrets, `trace
      ensures Valid() && Continues() && (!faulty ==> ok) && OnlyLost(token)
      ensures secretGone ==> secrets == old(secrets) && (ok ==> token !in rows)
      ensures !secretGone ==> rows == old(rows) && (ok ==> token !in secrets)
    {
      if secretGone {
        ok := DeleteRow(token);
      } else {
        ok := DeleteSecret(token);
      }
    }

    twostate predicate OnlyLostOf(tokens: set<Id>)
      reads this
    {
      && rows.Keys <= old(rows).Keys && secrets <= old(secrets)
      && (forall t :: t in rows ==> rows[t] == old(rows)[t])
      && (forall t :: t in old(rows) && t !in rows ==> t in tokens)
      && (forall t :: t in old(secrets) && t !in secrets ==> t in tokens)
    }

    /** All erasures are started at once; they take turns call by call, in any order. */
    method EraseTogether(tokens: set<Id>) returns (ok: bool)
      requires Valid() && tokens !! sessions.Keys
      modifies `rows, `secrets, `trace
      ensures Valid() && Continues() && (!faulty ==> ok) && OnlyLostOf(tokens)
      ensures ok ==> tokens !! rows.Keys && tokens !! secrets
    {
      var begun, halfway := tokens, {};
      ok := true;
      while begun + halfway != {}
        invariant Valid() && Continues() && begun + halfway <= tokens && (!faulty ==> ok) && OnlyLostOf(tokens)
        invariant halfway !! secrets && halfway !! begun
        invariant ok ==> (tokens - begun) !! secrets && (tokens - begun - halfway) !! rows.Keys
        decreases |begun|, |halfway|
      {
        var t :| t in begun + halfway;
        var done := EraseNext(t, t in halfway);
        ok := ok && done;
        if t in halfway {
          halfway := halfway - {t};
        } else {
          begun := begun - {t};
          halfway := if done then halfway + {t} else halfway;
        }
      }
    }

    /** The credential part of deleting a user; every credential is tried, and success means all are gone. */
    method DeleteUserCredentials(id: Id) returns (ok: bool)
      requires Valid()
      modifies `rows, `secrets, `sessions, `trace
      ensures Valid() && Continues() && (ok ==> malformed == {}) && (!faulty ==> ok == (malformed == {}))
      ensures forall t :: t in sessions <==> t in old(sessions) && old(sessions)[t].identityId != id
      ensures ok ==> forall t :: t in rows ==> rows[t].identityId != id
      ensures ok ==> forall t :: t in old(rows) && old(rows)[t].identityId == id ==>
            t !in rows && t !in secrets && t !in sessions
      ensures forall t :: t in old(rows) && old(rows)[t].identityId != id ==>
        Get(rows, t) == Get(old(rows), t) && (t in secrets <==> t in old(secrets))
    {
      DropSessionsOf(id);
      ok := ReadRows();
      if ok {
        var persisted := set t | t in rows && rows[t].identityId == id;
        ok := EraseTogether(persisted);
      }
    }
  }
}
