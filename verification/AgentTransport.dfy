/**
 The two parties of the rotation protocol as the objects that keep its state. Each method is the code
 between two awaits and is proved to take exactly the step of the machine in CertificateRotation.
 */
module AgentTransport {
  import opened Prelude
  import opened CertificateRotation

  /**
   The node's side: the durable documents of the secret store, what the process last loaded or wrote, the connection and
   the queue of state mutations. Every method takes one step of the machine on `View()`, so what is proved of all runs
   holds for its callers: under the conditions of RotationLockouts.LockoutFreedom `stored` holds the one unrevoked
   certificate whatever order they are called in, and by RotationAttempts.ActiveCertificateIsTried of two consecutive
   calls of `Connect` whose links close unopened one presents it.
   */
  class NodeAgent {
    var stored: Held                    // secret store, `cluster:node-identity`
    var rotationRequest: Option<Csr>    // secret store, `cluster:node-rotation`
    var state: Held
    var preferActiveIdentity: bool
    var connection: Option<Link>
    var stateMutations: seq<Write>
    var inbox: seq<ToNode>

    constructor (identity: Held)
      ensures View() == Node(identity, identity, false, None, [], [], None)
    {
      stored, state, preferActiveIdentity := identity, identity, false;
      connection, stateMutations, inbox, rotationRequest := None, [], [], None;
    }

    function View(): Node reads this {
      Node(stored, state, preferActiveIdentity, connection, stateMutations, inbox, rotationRequest)
    }

    method Connect(id: LinkId)
      requires connection.None?
      modifies this
      ensures View() == Connected(old(View()), id)
    {
      var slot, identity := ActiveSlot, state.active;
      if state.pending.Some? && !preferActiveIdentity {
        slot, identity := PendingSlot, state.pending.value.cert;
      }
      connection := Some(Link(id, slot, identity, Connecting, None));
      inbox := [];
    }

    method SendHello()
      requires connection.Some?
      modifies this
      ensures View() == HelloStarted(old(View()))
    {
      var loaded := None;
      if state.pending.Some? {
        loaded := Some(state.pending.value.stagedAt);
      }
      connection := Some(connection.value.(phase := HelloSent(loaded)));
    }

    method HelloAcknowledged(p: Params, now: Millis)
      requires connection.Some? && inbox != [] && inbox[0].HelloOk?
      modifies this
      ensures View() == Received(p, now, old(View()))
    {
      inbox := inbox[1..];
      var link := connection.value;
      if !link.phase.HelloSent? {
        return;
      }
      if link.slot.PendingSlot? {
        stateMutations := stateMutations + [Promote(link.id)];
        connection := Some(link.(phase := Replied));
      } else if link.phase.loaded.Some? {
        var stagingAge := now - link.phase.loaded.value;
        if stagingAge >= p.nodeTtl {
          stateMutations := stateMutations + [Drop(link.id)];
          connection := Some(link.(phase := Replied));
        } else {
          preferActiveIdentity := false;
          connection := Some(link.(phase := Opened));
        }
      } else {
        connection := Some(link.(phase := Opened));
      }
    }

    method RotationAnswered(p: Params, now: Millis)
      requires connection.Some? && inbox != [] && !inbox[0].HelloOk?
      modifies this
      ensures View() == Received(p, now, old(View()))
    {
      var link, answer := connection.value, inbox[0];
      inbox := inbox[1..];
      if link.rotating == Some(answer.csr) {
        connection := Some(link.(rotating := None));
        if answer.Rotated? {
          stateMutations := stateMutations + [Adopt(answer.cert)];
        }
      }
    }

    /** A stored request survives crashes and lost replies and is used again. */
    method StageRotation(created: Csr) returns (csr: Csr)
      requires MayRotate(View())
      modifies this
      ensures csr == if old(rotationRequest).Some? then old(rotationRequest).value else created
      ensures View() == RotationStarted(old(View()), csr)
    {
      if rotationRequest.None? {
        rotationRequest := Some(created);
      }
      csr := rotationRequest.value;
      connection := Some(connection.value.(rotating := Some(csr)));
    }

    method MutateState(now: Millis, outcome: WriteOutcome)
      requires stateMutations != []
      modifies this
      ensures View() == WriteEnded(now, old(View()), outcome)
    {
      var mutation := stateMutations[0];
      var ours := OwnsLink(View(), mutation);
      stateMutations := stateMutations[1..];
      var next := Transformed(mutation, state, now);
      if next.None? || outcome.NotWritten? {
        if ours { ConnectionClosed(); }
        return;
      }
      stored := next.value;
      if outcome.WrittenButReportedFailed? {
        if ours { ConnectionClosed(); }
        return;
      }
      state := next.value;
      if mutation.Promote? {
        preferActiveIdentity := false;
        if ours { connection := Some(connection.value.(phase := Opened, slot := ActiveSlot)); }
      }
      if mutation.Drop? && ours {
        connection := Some(connection.value.(phase := Opened));
      }
      if (mutation.Promote? || mutation.Adopt?) && !outcome.keepRequest {
        rotationRequest := None;
      }
    }

    method ConnectionClosed()
      requires connection.Some?
      modifies this
      ensures View() == LinkClosed(old(View()))
    {
      var link := connection.value;
      connection, inbox := None, [];
      if link.slot.PendingSlot? && !link.phase.Opened? {
        preferActiveIdentity := true;
      } else if link.slot.ActiveSlot? && !link.phase.Opened? {
        preferActiveIdentity := false;
      }
    }

    method Restart()
      modifies this
      ensures View() == Restarted(old(View()))
    {
      state, preferActiveIdentity, connection := stored, false, None;
      stateMutations, inbox := [], [];
    }
  }

  /**
   The controller's side for one node. The machine keeps one table of peers; the code keeps accepted connections and
   candidates apart and moves a peer from one table to the other. `Valid` says what that buys: a connection is in
   exactly one of the two and at most one is accepted. The methods are the code between two awaits, so a caller may
   interleave them as it likes; RotationLockouts.LockoutFreedom says which two pairs must not be interleaved.
   */
  class AgentController {
    var upgrades: map<LinkId, Upgrade>
    var connections: map<LinkId, Peer>
    var candidateConnections: map<LinkId, Peer>
    var stagedIdentity: Option<Stage>
    var lastCertificateRotation: Option<Millis>
    var signing: set<Signing>
    var landing: set<Cert>
    ghost var foremost: Option<LinkId>    // the connection that all others were last closed for

    constructor ()
      ensures Valid() && View() == IdleController
    {
      upgrades, connections, candidateConnections := map[], map[], map[];
      stagedIdentity, lastCertificateRotation, signing, landing, foremost := None, None, {}, {}, None;
    }

    /** A connection is in exactly one table, and a node has at most one connection that is accepted or about to be. */
    ghost predicate Valid() reads this {
      && connections.Keys !! candidateConnections.Keys
      && (forall id :: id in connections ==> connections[id].progress.Accepted? && foremost == Some(id))
      && (forall id :: id in candidateConnections ==>
            && !candidateConnections[id].progress.Accepted?
            && (candidateConnections[id].progress.Replaced? || candidateConnections[id].progress.Confirming? ==>
              foremost == Some(id)))
    }

    ghost function View(): Controller reads this {
      Controller(upgrades, connections + candidateConnections, stagedIdentity, lastCertificateRotation, signing,
        landing)
    }

    /** An upgrade request looks at the staged identity and asks the table about its certificate. */
    method BeginUpgrade(p: Params, now: Millis, id: LinkId, cert: Cert)
      requires Valid()
      modifies this`stagedIdentity, this`upgrades
      ensures Valid() && View() == Authenticate(p, now, old(View()), id, cert)
    {
      if stagedIdentity.Some? && now - stagedIdentity.value.stagedAt >= p.controllerTtl {
        stagedIdentity := None;
      }
      upgrades := upgrades[id := Upgrade(cert, stagedIdentity, None)];
    }

    /** The table answers. */
    method CertificateLookedUp(r: Registry, id: LinkId)
      requires Valid() && id in upgrades
      modifies this`upgrades
      ensures Valid() && View() == LookUp(r, old(View()), id)
    {
      upgrades := upgrades[id := upgrades[id].(active := Some(IsActive(r, upgrades[id].cert)))];
    }

    /** The table has answered: an active certificate is let in, a staged one only while it is still the staged one. */
    method FinishUpgrade(id: LinkId)
      requires Valid() && id in upgrades && upgrades[id].active.Some? && id !in View().peers
      modifies this`upgrades, this`candidateConnections
      ensures Valid() && View() == Admit(old(View()), id)
    {
      var upgrade := upgrades[id];
      upgrades := upgrades - {id};
      var staged := upgrade.staged;
      var matching := if staged.Some? && staged.value.cert == upgrade.cert then staged else None;
      if upgrade.active.value {
        AddCandidate(id, Peer(upgrade.cert, None, matching, AwaitingHello, []));
      } else if matching.Some? && stagedIdentity == matching {
        AddCandidate(id, Peer(upgrade.cert, matching, None, AwaitingHello, []));
      }
    }

    method AddCandidate(id: LinkId, candidate: Peer)
      requires Valid() && id !in View().peers && candidate.progress.AwaitingHello?
      modifies this`candidateConnections
      ensures Valid() && View() == old(View()).(peers := old(View()).peers[id := candidate])
    {
      candidateConnections := candidateConnections[id := candidate];
      assert View().peers == old(View()).peers[id := candidate];
    }

    method ReleaseConnection(id: LinkId)
      requires Valid()
      modifies this`connections, this`candidateConnections
      ensures Valid() && View() == Closed(old(View()), id)
    {
      candidateConnections := candidateConnections - {id};
      connections := connections - {id};
      assert View().peers == old(View()).peers - {id};
    }

    /** The hello of a candidate that authenticated by its staged identity. */
    method StagedHello(p: Params, now: Millis, id: LinkId)
      requires Valid() && Candidate(View(), id, AwaitingHello)
      requires View().peers[id].staged.Some? && View().peers[id].inbox != []
      modifies this
      ensures Valid() && View() == CheckStaged(p, now, old(View()), id)
    {
      var connection := candidateConnections[id];
      var staged := connection.staged.value;
      if connection.inbox[0] != Hello || stagedIdentity != Some(staged) || now - staged.stagedAt >= p.controllerTtl {
        ReleaseConnection(id);
        return;
      }
      candidateConnections := candidateConnections[id := connection.(progress := Checked,
        inbox := connection.inbox[1..])];
      assert View().peers == CheckStaged(p, now, old(View()), id).peers;
    }

    /** `disconnect` and `disconnectCandidates(except)`, then the acceptance of connection `id`. */
    method AcceptOnly(id: LinkId, connection: Peer)
      requires Valid() && connection.progress.Accepted?
      modifies this`connections, this`candidateConnections, this`foremost
      ensures Valid() && View() == old(View()).(peers := map[id := connection])
    {
      candidateConnections := map[];
      connections := map[id := connection];
      foremost := Some(id);
    }

    /** Once the table write is done every other connection of the node is closed, then the table is read again. */
    method ReplaceConnections(id: LinkId)
      requires Valid() && Candidate(View(), id, Committed)
      modifies this`connections, this`candidateConnections, this`foremost
      ensures Valid() && View() == ReplaceOthers(old(View()), id)
    {
      var connection := candidateConnections[id];
      connections := map[];
      candidateConnections := map[id := connection.(progress := Replaced)];
      foremost := Some(id);
    }

    method ActivationConfirmed(r: Registry, id: LinkId)
      requires Valid() && Candidate(View(), id, Replaced)
      modifies this`candidateConnections
      ensures Valid() && View() == Confirm(r, old(View()), id)
    {
      var connection := candidateConnections[id];
      candidateConnections := candidateConnections[id := connection.(progress := Confirming(IsActive(r,
        connection.cert)))];
      assert View().peers == Confirm(r, old(View()), id).peers;
    }

    /** The rest of the staged hello once the table was read again. */
    method CompleteActivation(id: LinkId) returns (reply: Option<ToNode>)
      requires Valid() && id in View().peers && View().peers[id].progress.Confirming?
      modifies this`connections, this`candidateConnections, this`stagedIdentity
      ensures Valid() && View() == FinishActivation(old(View()), id)
      ensures reply == if old(View()).peers[id].progress.active then Some(HelloOk) else None
    {
      var connection := candidateConnections[id];
      if !connection.progress.active {
        ReleaseConnection(id);
        return None;
      }
      stagedIdentity := None;
      candidateConnections := candidateConnections - {id};
      connections := connections[id := connection.(staged := None, progress := Accepted)];
      assert View().peers == FinishActivation(old(View()), id).peers;
      return Some(HelloOk);
    }

    /** The hello of a candidate that presented the active certificate, up to the answer of the table. */
    method ActiveHello(r: Registry, id: LinkId)
      requires Valid() && Candidate(View(), id, AwaitingHello)
      requires View().peers[id].staged.None? && View().peers[id].inbox != []
      modifies this`connections, this`candidateConnections
      ensures Valid() && View() == ReadHello(r, old(View()), id)
    {
      var connection := candidateConnections[id];
      if connection.inbox[0] != Hello {
        ReleaseConnection(id);
        return;
      }
      var active := IsActive(r, connection.cert);
      candidateConnections := candidateConnections[id := connection.(progress := Verified(active),
        inbox := connection.inbox[1..])];
      assert View().peers == ReadHello(r, old(View()), id).peers;
    }

    /** The rest of that hello: the connection replaces all others, and settles the stage it was activated from. */
    method AcceptHello(p: Params, now: Millis, id: LinkId) returns (reply: Option<ToNode>)
      requires Valid() && id in View().peers && View().peers[id].progress.Verified?
      modifies this`connections, this`candidateConnections, this`stagedIdentity, this`foremost
      ensures Valid() && View() == AcceptVerified(p, now, old(View()), id)
      ensures reply == if old(View()).peers[id].progress.active then Some(HelloOk) else None
    {
      var connection := candidateConnections[id];
      if !connection.progress.active {
        ReleaseConnection(id);
        return None;
      }
      AcceptOnly(id, connection.(activated := None, progress := Accepted));
      if connection.activated.Some? {
        var activated := connection.activated.value;
        if stagedIdentity == Some(activated) && now - activated.stagedAt < p.controllerTtl {
          stagedIdentity := None;
        }
      }
      return Some(HelloOk);
    }

    method NextMessage(id: LinkId) returns (message: ToController)
      requires Valid() && Candidate(View(), id, Accepted) && View().peers[id].inbox != []
      modifies this`connections
      ensures Valid() && message == old(View()).peers[id].inbox[0]
      ensures View() == old(View()).(peers := old(View()).peers[id := old(View()).peers[id].(
                inbox := old(View()).peers[id].inbox[1..])])
    {
      var connection := connections[id];
      message := connection.inbox[0];
      connections := connections[id := connection.(inbox := connection.inbox[1..])];
      assert View().peers == old(View()).peers[id := connection.(inbox := connection.inbox[1..])];
    }

    /** A certificate signing request of the accepted connection. */
    method RotationRequested(p: Params, r: Registry, now: Millis, id: LinkId) returns (reply: RotationReply)
      requires Valid() && Candidate(View(), id, Accepted)
      requires View().peers[id].inbox != [] && View().peers[id].inbox[0].Rotate?
      modifies this
      ensures Valid() && View() == ReadRotation(p, r, now, old(View()), id)
      ensures reply == RotationReplyTo(p, r, now, old(View()), old(View()).peers[id].inbox[0].csr)
    {
      var message := NextMessage(id);
      var csr := message.csr;
      if stagedIdentity.Some? && now - stagedIdentity.value.stagedAt < p.controllerTtl {
        if stagedIdentity.value.csr == csr {
          return Reissued(stagedIdentity.value.cert);
        }
        return OtherPending;
      }
      stagedIdentity := None;
      if lastCertificateRotation.Some? && now - lastCertificateRotation.value < p.cooldown {
        ReleaseConnection(id);
        return Dropped;
      }
      if r.revoked {
        ReleaseConnection(id);
        return Dropped;
      }
      signing := signing + {Signing(id, csr, now)};
      return SigningStarted;
    }

    method CertificateSigned(request: Signing, cert: Cert)
      requires Valid() && request in signing
      modifies this
      ensures Valid() && View() == StageSigned(old(View()), request, cert)
    {
      signing := signing - {request};
      stagedIdentity := Some(Stage(cert, request.csr, request.startedAt));
      lastCertificateRotation := Some(request.startedAt);
    }
  }
}
