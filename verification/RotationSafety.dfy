/**
 Why a node is never locked out when activation and acceptance are atomic, at most one state write is outstanding at a
 time, and (if writes may lie about failing, or the node reconnects during one) the controller forgets a staged identity
 no later than the node does: every step keeps the invariant of RotationInvariant, so every reachable state has it.
 */
module RotationSafety {
  import opened Prelude
  import opened CertificateRotation
  import opened RotationInvariant

  // ---------------------------------------------------------------- steps of the controller

  /** A step that leaves the table and the node alone, keeps or forgets the stage, and lets nothing new be activated. */
  lemma ControllerKeeps(p: Params, w: World, w': World)
    requires Core(p, w) && NoNewThreat(p, w, w') && w.now <= w'.now
    requires w'.registry == w.registry && w'.supply == w.supply && w'.node == w.node
    requires w'.controller.stage == w.controller.stage || w'.controller.stage.None?
    requires TablesOk(w')
    requires w'.node.link.Some? ==> CurrentOk(ViewOf(p, w'), w'.controller, w'.node.link.value)
    ensures Core(p, w')
  {
    ThreatsShrink(p, w, w');
    MilderOk(ViewOf(p, w), ViewOf(p, w'), w.node);
  }

  /** What the tables say of the current link stays true with fewer threats. */
  lemma CurrentStaysOk(v: View, v': View, c: Controller, link: Link)
    requires CurrentOk(v, c, link) && Milder(v, v') && v'.stage == v.stage
    ensures CurrentOk(v', c, link)
  {
  }

  lemma TickKeeps(p: Params, w: World, elapsed: Millis)
    requires Core(p, w)
    ensures Core(p, w.(now := w.now + elapsed))
  {
    var w' := w.(now := w.now + elapsed);
    ThreatsShrink(p, w, w');
    MilderOk(ViewOf(p, w), ViewOf(p, w'), w.node);
    if w.node.link.Some? {
      CurrentStaysOk(ViewOf(p, w), ViewOf(p, w'), w.controller, w.node.link.value);
    }
  }

  lemma ForgetStageKeeps(p: Params, w: World)
    requires Core(p, w)
    ensures Core(p, w.(controller := w.controller.(stage := None)))
  {
    ControllerKeeps(p, w, w.(controller := w.controller.(stage := None)));
  }

  lemma ControllerRestartKeeps(p: Params, w: World)
    requires Core(p, w)
    ensures Core(p, w.(controller := IdleController))
  {
    ControllerKeeps(p, w, w.(controller := IdleController));
  }

  lemma DisconnectKeeps(p: Params, w: World, id: LinkId)
    requires Core(p, w)
    ensures Core(p, w.(controller := Closed(w.controller, id)))
  {
    var w' := w.(controller := Closed(w.controller, id));
    ThreatsShrink(p, w, w');
    ControllerKeeps(p, w, w');
  }

  lemma AuthenticateKeeps(p: Params, w: World)
    requires Core(p, w) && Enabled(p, w, ControllerAuthenticate)
    ensures Core(p, Next(p, w, ControllerAuthenticate))
  {
    ControllerKeeps(p, w, Next(p, w, ControllerAuthenticate));
  }

  lemma LookUpKeeps(p: Params, w: World, id: LinkId)
    requires Core(p, w) && Enabled(p, w, ControllerLookUp(id))
    ensures Core(p, w.(controller := LookUp(w.registry, w.controller, id)))
  {
    ControllerKeeps(p, w, w.(controller := LookUp(w.registry, w.controller, id)));
  }

  /** One peer changes without becoming able to be activated. */
  lemma PeerKeeps(p: Params, w: World, id: LinkId, peer: Peer)
    requires Core(p, w) && id in w.controller.peers
    requires PeerOk(w.supply, id, peer) && peer.cert == w.controller.peers[id].cert
    requires var w' := w.(controller := w.controller.(peers := w.controller.peers[id := peer]));
             && (Activatable(p, w', id) ==>
                   Activatable(p, w, id) && (HelloHeard(peer) ==> HelloHeard(w.controller.peers[id])))
             && (CurrentLink(w.node) == Some(id) ==>
                   && AnswerOk(ViewOf(p, w), peer) && SilentOk(w'.controller, w.node.link.value)
                   && !(peer.progress.AwaitingHello?))
    requires w.controller.peers[id].progress.Accepted? ==> peer.progress.Accepted?
    ensures Core(p, w.(controller := w.controller.(peers := w.controller.peers[id := peer])))
  {
    var w' := w.(controller := w.controller.(peers := w.controller.peers[id := peer]));
    assert NoNewThreat(p, w, w');
    ThreatsShrink(p, w, w');
    ControllerKeeps(p, w, w');
  }

  lemma CheckKeeps(p: Params, w: World, id: LinkId)
    requires Core(p, w) && Enabled(p, w, ControllerCheck(id))
    ensures Core(p, w.(controller := CheckStaged(p, w.now, w.controller, id)))
  {
    var peer := w.controller.peers[id];
    if id in CheckStaged(p, w.now, w.controller, id).peers {
      PeerKeeps(p, w, id, peer.(progress := Checked, inbox := peer.inbox[1..]));
    } else {
      DisconnectKeeps(p, w, id);
    }
  }

  function Consumed(c: Controller, id: LinkId): Controller
    requires id in c.peers && c.peers[id].inbox != []
  {
    c.(peers := c.peers[id := c.peers[id].(inbox := c.peers[id].inbox[1..])])
  }

  lemma ConsumeKeeps(p: Params, w: World, id: LinkId)
    requires Core(p, w) && Candidate(w.controller, id, Accepted) && w.controller.peers[id].inbox != []
    ensures Core(p, w.(controller := Consumed(w.controller, id)))
  {
    var peer := w.controller.peers[id];
    PeerKeeps(p, w, id, peer.(inbox := peer.inbox[1..]));
  }

  lemma SigningKeeps(p: Params, w: World, s: Signing)
    requires Core(p, w) && s.startedAt <= w.now && Candidate(w.controller, s.link, Accepted)
    ensures Core(p, w.(controller := w.controller.(signing := w.controller.signing + {s})))
  {
    ControllerKeeps(p, w, w.(controller := w.controller.(signing := w.controller.signing + {s})));
  }

  lemma ReplaceKeeps(p: Params, w: World, id: LinkId)
    requires Core(p, w) && Candidate(w.controller, id, Committed)
    ensures Core(p, w.(controller := ReplaceOthers(w.controller, id)))
  {
    var c := w.controller;
    var c' := ReplaceOthers(c, id);
    var w' := w.(controller := c');
    assert c'.peers.Keys == {id} && c'.peers[id] == c.peers[id].(progress := Replaced);
    assert forall k :: k in c'.peers ==> !Activatable(p, w', k);
    ThreatsShrink(p, w, w');
    ControllerKeeps(p, w, w');
  }

  lemma ConfirmKeeps(p: Params, w: World, id: LinkId)
    requires Core(p, w) && Candidate(w.controller, id, Replaced)
    ensures Core(p, w.(controller := Confirm(w.registry, w.controller, id)))
  {
    var peer := w.controller.peers[id];
    PeerKeeps(p, w, id, peer.(progress := Confirming(IsActive(w.registry, peer.cert))));
  }

  /** A peer that has not said hello adds at most its own certificate to the threats. */
  lemma SilentPeerAdded(p: Params, w: World, id: LinkId, peer: Peer, c': Controller)
    requires id !in w.controller.peers && peer.progress.AwaitingHello? && peer.inbox == []
    requires c'.peers == w.controller.peers[id := peer] && c'.stage == w.controller.stage
    ensures var w' := w.(controller := c');
            var added := if Activatable(p, w', id) then {peer.cert} else {};
            ViewOf(p, w') == ViewOf(p, w).(threats := Threats(p, w) + added)
  {
    var peers, w' := w.controller.peers, w.(controller := c');
    assert forall k :: k in peers ==> c'.peers[k] == peers[k];
    assert forall k :: k in peers ==> (Activatable(p, w', k) <==> Activatable(p, w, k));
    var added := if Activatable(p, w', id) then {peer.cert} else {};
    assert c'.peers[id] == peer;
    forall cert | cert in Threats(p, w) + added ensures cert in Threats(p, w') {
      if cert in Threats(p, w) {
        var k :| k in peers && Activatable(p, w, k) && peers[k].cert == cert;
        assert Activatable(p, w', k) && c'.peers[k].cert == cert;
      }
    }
    forall cert | cert in Heard(p, w) ensures cert in Heard(p, w') {
      var k :| k in peers && Activatable(p, w, k) && HelloHeard(peers[k]) && peers[k].cert == cert;
      assert Activatable(p, w', k) && c'.peers[k].cert == cert;
    }
    assert Threats(p, w') == Threats(p, w) + added;
    assert Heard(p, w') == Heard(p, w);
  }

  lemma AdmittedTables(p: Params, w: World, id: LinkId)
    requires Core(p, w) && Enabled(p, w, ControllerAdmit(id))
    ensures TablesOk(w.(controller := Admit(w.controller, id)))
  {
  }

  lemma AdmittedCurrent(p: Params, w: World, id: LinkId)
    requires Core(p, w) && Enabled(p, w, ControllerAdmit(id)) && w.node.link.Some?
    ensures CurrentOk(ViewOf(p, w), Admit(w.controller, id), w.node.link.value)
  {
    var c', v, link := Admit(w.controller, id), ViewOf(p, w), w.node.link.value;
    if link.id == id {
      assert id !in c'.upgrades && id !in w.controller.peers;
    } else {
      assert link.id in c'.peers <==> link.id in w.controller.peers;
      assert link.id in c'.upgrades <==> link.id in w.controller.upgrades;
    }
  }

  /** An answered upgrade that is rejected, or whose candidate cannot be activated. */
  lemma HarmlessAdmitKeeps(p: Params, w: World, id: LinkId)
    requires Core(p, w) && Enabled(p, w, ControllerAdmit(id))
    requires var w' := w.(controller := Admit(w.controller, id)); ViewOf(p, w') == ViewOf(p, w)
    ensures Core(p, w.(controller := Admit(w.controller, id)))
  {
    AdmittedTables(p, w, id);
    if w.node.link.Some? {
      AdmittedCurrent(p, w, id);
    }
  }

  /** The upgrade of the current link, admitted on the live staged identity, adds what the link presents. */
  lemma StagedAdmitKeeps(p: Params, w: World, id: LinkId)
    requires Sound(p) && Core(p, w) && Enabled(p, w, ControllerAdmit(id))
    requires id in Admit(w.controller, id).peers && Activatable(p, w.(controller := Admit(w.controller, id)), id)
    ensures Core(p, w.(controller := Admit(w.controller, id)))
  {
    var c', v := Admit(w.controller, id), ViewOf(p, w);
    var w', peer := w.(controller := c'), c'.peers[id];
    SilentPeerAdded(p, w, id, peer, c');
    var link := w.node.link.value;
    assert link.id == id && link.cert == peer.cert;
    PendingPresentedOk(v, w.node);
    AdmittedTables(p, w, id);
    AdmittedCurrent(p, w, id);
    assert AnswerOk(ViewOf(p, w'), peer);
  }

  lemma AdmitKeeps(p: Params, w: World, id: LinkId)
    requires Sound(p) && Core(p, w) && Enabled(p, w, ControllerAdmit(id))
    ensures Core(p, w.(controller := Admit(w.controller, id)))
  {
    var c', peer := Admit(w.controller, id), Upgraded(w.controller.stage, w.controller.upgrades[id]);
    var w' := w.(controller := c');
    if peer.Some? && Activatable(p, w', id) {
      StagedAdmitKeeps(p, w, id);
    } else {
      if peer.Some? {
        SilentPeerAdded(p, w, id, peer.value, c');
        assert Threats(p, w') == Threats(p, w) + {} == Threats(p, w);
      } else {
        assert forall k :: k in c'.peers ==> (Activatable(p, w', k) <==> Activatable(p, w, k));
        assert Threats(p, w') == Threats(p, w) && Heard(p, w') == Heard(p, w);
      }
      HarmlessAdmitKeeps(p, w, id);
    }
  }

  lemma OnlyPeerTables(p: Params, w: World, id: LinkId, peer: Peer, stage: Option<Stage>)
    requires TablesOk(w) && id in w.controller.peers && peer.progress.Accepted?
    requires (peer.staged.Some? ==> peer.staged.value.cert == peer.cert) && (stage == w.controller.stage || stage.None?)
    ensures var w' := w.(controller := w.controller.(peers := map[id := peer], stage := stage));
            TablesOk(w') && NoNewThreat(p, w, w') && Threats(p, w') == {}
  {
    var w' := w.(controller := w.controller.(peers := map[id := peer], stage := stage));
    assert forall k :: k in w'.controller.peers ==> !Activatable(p, w', k);
  }

  /** Only the peer of one link is left, and it can no longer be activated. */
  lemma OnlyPeerKeeps(p: Params, w: World, id: LinkId, peer: Peer, stage: Option<Stage>)
    requires Core(p, w) && id in w.controller.peers
    requires peer.progress.Accepted? && peer.cert == w.controller.peers[id].cert
    requires (peer.staged.Some? ==> peer.staged.value.cert == peer.cert) && (stage == w.controller.stage || stage.None?)
    requires CurrentLink(w.node) == Some(id) ==> !w.node.link.value.phase.Connecting?
    requires CurrentLink(w.node) == Some(id) && stage.Some? && Live(p, w.now, stage.value) ==>
               stage.value.cert != w.registry.active
    ensures var w' := w.(controller := w.controller.(peers := map[id := peer], stage := stage));
            Core(p, w') && Threats(p, w') == {}
  {
    OnlyPeerTables(p, w, id, peer, stage);
    ControllerKeeps(p, w, w.(controller := w.controller.(peers := map[id := peer], stage := stage)));
  }

  /** A hello reply reaches a link that presents the active certificate when nothing else can be activated. */
  lemma HelloReplyKeeps(p: Params, w: World, id: LinkId)
    requires Sound(p) && Core(p, w)
    requires CurrentLink(w.node) == Some(id) ==>
      && Threats(p, w) == {} && w.node.link.value.cert == w.registry.active && !w.node.link.value.phase.Connecting?
    ensures Core(p, w.(node := Sent(w.node, id, HelloOk)))
  {
    HelloSentBackOk(ViewOf(p, w), w.node, id);
    SameThreats(p, w, Sent(w.node, id, HelloOk));
  }

  /** What the node does without changing its link changes nothing about what can be activated. */
  lemma SameThreats(p: Params, w: World, n: Node)
    requires CurrentLink(n) == CurrentLink(w.node)
    ensures ViewOf(p, w.(node := n)) == ViewOf(p, w)
  {
    assert forall id :: id in w.controller.peers ==> (Activatable(p, w.(node := n), id) <==> Activatable(p, w, id));
    assert Threats(p, w.(node := n)) == Threats(p, w);
    assert Heard(p, w.(node := n)) == Heard(p, w);
  }

  lemma AcceptedKeeps(p: Params, w: World, id: LinkId)
    requires Sound(p) && Core(p, w) && Enabled(p, w, ControllerAccept(id))
    requires w.controller.peers[id].inbox[0] == Hello && IsActive(w.registry, w.controller.peers[id].cert)
    ensures var w' := w.(controller := AcceptActive(p, w.registry, w.now, w.controller, id));
            && Core(p, w')
            && (CurrentLink(w.node) == Some(id) ==>
                  && Threats(p, w') == {} && w.node.link.value.cert == w.registry.active
                  && !w.node.link.value.phase.Connecting?)
  {
    var peer, c' := w.controller.peers[id], AcceptActive(p, w.registry, w.now, w.controller, id);
    var peer' := peer.(activated := None, progress := Accepted, inbox := peer.inbox[1..]);
    assert c' == w.controller.(peers := map[id := peer'], stage := c'.stage);
    OnlyPeerKeeps(p, w, id, peer', c'.stage);
  }

  lemma AcceptReplyKeeps(p: Params, w: World, id: LinkId)
    requires Sound(p) && Core(p, w) && Enabled(p, w, ControllerAccept(id))
    requires w.controller.peers[id].inbox[0] == Hello && IsActive(w.registry, w.controller.peers[id].cert)
    ensures Core(p, w.(controller := AcceptActive(p, w.registry, w.now, w.controller, id),
                       node := Sent(w.node, id, HelloOk)))
  {
    AcceptedKeeps(p, w, id);
    HelloReplyKeeps(p, w.(controller := AcceptActive(p, w.registry, w.now, w.controller, id)), id);
  }

  lemma AcceptKeeps(p: Params, w: World, id: LinkId)
    requires Sound(p) && Core(p, w) && Enabled(p, w, ControllerAccept(id))
    ensures Core(p, Next(p, w, ControllerAccept(id)))
  {
    var peer := w.controller.peers[id];
    if peer.inbox[0] == Hello && IsActive(w.registry, peer.cert) {
      AcceptReplyKeeps(p, w, id);
    } else {
      DisconnectKeeps(p, w, id);
      assert AcceptActive(p, w.registry, w.now, w.controller, id) == Closed(w.controller, id);
    }
  }

  /** The staged identity is forgotten and the peer accepted. */
  lemma FinishedKeeps(p: Params, w: World, id: LinkId)
    requires Core(p, w) && Enabled(p, w, ControllerFinish(id)) && w.controller.peers[id].progress.active
    ensures var w' := w.(controller := FinishActivation(w.controller, id));
            && Core(p, w')
            && (CurrentLink(w.node) == Some(id) ==>
                  && Threats(p, w') == {} && w.node.link.value.cert == w.registry.active
                  && !w.node.link.value.phase.Connecting?)
  {
    var c := w.controller.(stage := None);
    var w1, peer := w.(controller := c), c.peers[id].(staged := None, progress := Accepted);
    ForgetStageKeeps(p, w);
    ThreatsShrink(p, w, w1);
    PeerKeeps(p, w1, id, peer);
    assert FinishActivation(w.controller, id) == c.(peers := c.peers[id := peer]);
  }

  lemma FinishKeeps(p: Params, w: World, id: LinkId)
    requires Sound(p) && Core(p, w) && Enabled(p, w, ControllerFinish(id))
    ensures Core(p, Next(p, w, ControllerFinish(id)))
  {
    var peer := w.controller.peers[id];
    if peer.progress.active {
      FinishedKeeps(p, w, id);
      var w' := w.(controller := FinishActivation(w.controller, id));
      HelloReplyKeeps(p, w', id);
      assert Next(p, w, ControllerFinish(id)) == w'.(node := Sent(w.node, id, HelloOk));
    } else {
      DisconnectKeeps(p, w, id);
      assert Next(p, w, ControllerFinish(id)) == w.(controller := Closed(w.controller, id));
    }
  }

  // ---------------------------------------------------------------- activation

  function Activating(w: World, id: LinkId): World
    requires id in w.controller.peers
  {
    var peer := w.controller.peers[id];
    w.(registry := w.registry.(active := peer.cert, issued := w.registry.issued + {peer.cert}),
       controller := w.controller.(peers := w.controller.peers[id := peer.(progress := Committed)]))
  }

  /** After an activation no certificate is left that could be activated. */
  lemma ActivatedThreats(p: Params, w: World, id: LinkId)
    requires Candidate(w.controller, id, Checked) && w.controller.peers[id].cert !in w.registry.issued
    requires ThreatsHeld(Threats(p, w), w.node)
    ensures Threats(p, Activating(w, id)) == {} && Heard(p, Activating(w, id)) == {}
    ensures w.controller.peers[id].cert in Heard(p, w) && Heard(p, w) <= Threats(p, w)
  {
    var w', peers := Activating(w, id), w.controller.peers;
    assert peers[id].cert in Threats(p, w);
    forall k | k in w'.controller.peers
      ensures !Activatable(p, w', k)
    {
      assert Activatable(p, w, k) ==> peers[k].cert in Threats(p, w);
    }
  }

  lemma ActivatedTables(p: Params, w: World, id: LinkId)
    requires Core(p, w) && Candidate(w.controller, id, Checked) && w.controller.peers[id].cert !in w.registry.issued
    ensures TablesOk(Activating(w, id))
    ensures w.node.link.Some? ==>
      CurrentOk(ViewOf(p, Activating(w, id)), Activating(w, id).controller, w.node.link.value)
  {
    ActivatedThreats(p, w, id);
  }

  lemma ActivateKeeps(p: Params, w: World, id: LinkId)
    requires Sound(p) && Core(p, w) && Candidate(w.controller, id, Checked)
    requires w.controller.peers[id].cert !in w.registry.issued
    ensures Core(p, Activating(w, id))
  {
    var v, cert, w' := ViewOf(p, w), w.controller.peers[id].cert, Activating(w, id);
    ActivatedThreats(p, w, id);
    ActivatedTables(p, w, id);
    ActivatedOk(v, w.node, cert);
  }

  // ---------------------------------------------------------------- rotation requests

  /** The answer to a rotation request reaches the link only once that link was accepted. */
  lemma RotationReplyKeeps(p: Params, w: World, id: LinkId, csr: Csr, reply: RotationReply)
    requires Sound(p) && Core(p, w)
    requires reply.Reissued? || reply.OtherPending? ==> Candidate(w.controller, id, Accepted)
    requires reply.Reissued? ==>
      var stage := w.controller.stage; stage.Some? && Live(p, w.now, stage.value) && stage.value.cert == reply.cert
    ensures Core(p, w.(node := Answered(w.node, id, csr, reply)))
  {
    match reply {
      case Reissued(_) => RotatedSentOk(ViewOf(p, w), w.node, id, csr);
      case OtherPending => RefusedSentOk(ViewOf(p, w), w.node, id, csr);
      case _ =>
    }
    SameThreats(p, w, Answered(w.node, id, csr, reply));
  }

  function RequestRead(p: Params, w: World, id: LinkId): World
    requires id in w.controller.peers && w.controller.peers[id].inbox != []
  {
    w.(controller := Consumed(w.controller, id).(stage := LiveStage(p, w.now, w.controller.stage)))
  }

  lemma RequestReadKeeps(p: Params, w: World, id: LinkId)
    requires Core(p, w) && Candidate(w.controller, id, Accepted) && w.controller.peers[id].inbox != []
    ensures Core(p, RequestRead(p, w, id))
  {
    var w1 := w.(controller := Consumed(w.controller, id));
    ConsumeKeeps(p, w, id);
    ForgetStageKeeps(p, w1);
    assert RequestRead(p, w, id) == w1 || RequestRead(p, w, id) == w1.(controller := w1.controller.(stage := None));
  }

  lemma RotationRead(p: Params, w: World, id: LinkId)
    requires Enabled(p, w, ControllerReadRotation(id))
    ensures var csr := w.controller.peers[id].inbox[0].csr;
            var w', next := RequestRead(p, w, id), Next(p, w, ControllerReadRotation(id));
            match RotationReplyTo(p, w.registry, w.now, w.controller, csr)
            case Dropped => next == w'.(controller := Closed(w'.controller, id))
            case SigningStarted =>
              next == w'.(controller := w'.controller.(signing := w'.controller.signing + {Signing(id, csr, w.now)}))
            case reply => next == w'.(node := Answered(w'.node, id, csr, reply))
  {
  }

  lemma ReadRotationKeeps(p: Params, w: World, id: LinkId)
    requires Sound(p) && Core(p, w) && Enabled(p, w, ControllerReadRotation(id))
    ensures Core(p, Next(p, w, ControllerReadRotation(id)))
  {
    var csr, w' := w.controller.peers[id].inbox[0].csr, RequestRead(p, w, id);
    RequestReadKeeps(p, w, id);
    RotationRead(p, w, id);
    match RotationReplyTo(p, w.registry, w.now, w.controller, csr)
    case Dropped => DisconnectKeeps(p, w', id);
    case SigningStarted => SigningKeeps(p, w', Signing(id, csr, w.now));
    case reply => RotationReplyKeeps(p, w', id, csr, reply);
  }

  function Signed(w: World, s: Signing): World {
    w.(controller := StageSigned(w.controller, s, w.supply), supply := w.supply + 1)
  }

  lemma SignedTables(p: Params, w: World, s: Signing)
    requires Core(p, w) && s in w.controller.signing
    ensures ViewOf(p, Signed(w, s)) == ViewOf(p, w).(stage := Signed(w, s).controller.stage, supply := w.supply + 1)
    ensures TablesOk(Signed(w, s))
    ensures w.node.link.Some? ==> CurrentOk(ViewOf(p, Signed(w, s)), Signed(w, s).controller, w.node.link.value)
  {
    var w' := Signed(w, s);
    assert forall id :: id in w.controller.peers ==> (Activatable(p, w', id) <==> Activatable(p, w, id));
    assert Threats(p, w') == Threats(p, w) && Heard(p, w') == Heard(p, w);
  }

  lemma SignedKeeps(p: Params, w: World, s: Signing)
    requires Sound(p) && Core(p, w) && s in w.controller.signing
    ensures Core(p, Signed(w, s))
  {
    StagedOk(ViewOf(p, w), w.node, s.csr, s.startedAt);
    SignedTables(p, w, s);
  }

  /** The signed certificate is sent to a link that is still connected, and so accepted. */
  lemma StageKeeps(p: Params, w: World, s: Signing)
    requires Sound(p) && Core(p, w) && s in w.controller.signing
    ensures Core(p, Signed(w, s).(node := Told(w.controller, w.node, s, w.supply)))
  {
    var w' := Signed(w, s);
    SignedKeeps(p, w, s);
    if s.link in w.controller.peers {
      RotatedSentOk(ViewOf(p, w'), w.node, s.link, s.csr);
      SameThreats(p, w', Told(w.controller, w.node, s, w.supply));
    }
  }

  // ---------------------------------------------------------------- steps of the node

  /** The node changes or leaves its link. */
  lemma NodeKeeps(p: Params, w: World, n: Node)
    requires Core(p, w) && NodeOk(ViewOf(p, w), n) && SameLink(w.node, n)
    ensures Core(p, w.(node := n))
  {
    var w' := w.(node := n);
    ThreatsShrink(p, w, w');
    MilderOk(ViewOf(p, w), ViewOf(p, w'), n);
  }

  lemma ConnectedThreats(p: Params, w: World)
    requires TablesOk(w) && w.node.link.None?
    ensures var w' := w.(node := Connected(w.node, w.supply), supply := w.supply + 1);
            Milder(ViewOf(p, w).(supply := w.supply + 1), ViewOf(p, w'))
  {
    assert w.supply !in w.controller.peers;
    ThreatsShrink(p, w, w.(node := Connected(w.node, w.supply), supply := w.supply + 1));
  }

  /** The tables hold nothing of a new link. */
  lemma ConnectedTables(v: View, w: World)
    requires TablesOk(w) && w.node.link.None?
    ensures var w' := w.(node := Connected(w.node, w.supply), supply := w.supply + 1);
            TablesOk(w') && CurrentOk(v, w.controller, w'.node.link.value)
  {
    assert w.supply !in w.controller.peers && w.supply !in w.controller.upgrades;
  }

  lemma ConnectedNodeOk(v: View, v': View, n: Node)
    requires Sound(v.p) && NodeOk(v, n) && MayProceed(v.p, n) && n.link.None?
    requires forall cert :: cert in v.registry.issued ==> cert < v.supply
    requires Milder(v.(supply := v.supply + 1), v')
    ensures NodeOk(v', Connected(n, v.supply))
  {
    ConnectedOk(v, n);
    MilderOk(v.(supply := v.supply + 1), v', Connected(n, v.supply));
  }

  lemma ConnectKeeps(p: Params, w: World)
    requires Sound(p) && Core(p, w) && MayProceed(p, w.node) && w.node.link.None?
    ensures Core(p, w.(node := Connected(w.node, w.supply), supply := w.supply + 1))
  {
    var w' := w.(node := Connected(w.node, w.supply), supply := w.supply + 1);
    ConnectedThreats(p, w);
    ConnectedNodeOk(ViewOf(p, w), ViewOf(p, w'), w.node);
    ConnectedTables(ViewOf(p, w'), w);
  }

  /** What the node sends on its link arrives at a peer that was counted as able to be activated already. */
  lemma DeliveredKeeps(p: Params, w: World, n: Node, m: ToController, supply: nat)
    requires Core(p, w) && w.node.link.Some? && n.link.Some? && w.supply <= supply && SameId(w.node, n)
    requires !n.link.value.phase.Connecting? && n.link.value.id !in w.controller.upgrades
    requires var c := Delivered(w.controller, n.link.value.id, m);
             NodeOk(ViewOf(p, w).(supply := supply, heard := Heard(p, w.(controller := c))), n)
    ensures Core(p, w.(controller := Delivered(w.controller, n.link.value.id, m), node := n, supply := supply))
  {
    var w' := w.(controller := Delivered(w.controller, n.link.value.id, m), node := n, supply := supply);
    DeliveredThreats(p, w, n, m, supply);
    MilderOk(ViewOf(p, w).(supply := supply, heard := Heard(p, w')), ViewOf(p, w'), n);
  }

  predicate SameId(n: Node, n': Node) {
    n.link.Some? && n'.link.Some? && n'.link.value.id == n.link.value.id && n'.link.value.cert == n.link.value.cert
  }

  lemma DeliveredThreats(p: Params, w: World, n: Node, m: ToController, supply: nat)
    requires SameId(w.node, n)
    ensures var c := Delivered(w.controller, n.link.value.id, m);
            var w' := w.(controller := c, node := n, supply := supply);
            Threats(p, w') <= Threats(p, w) && Heard(p, w') == Heard(p, w.(controller := c))
  {
    var c := Delivered(w.controller, n.link.value.id, m);
    var w', w'' := w.(controller := c, node := n, supply := supply), w.(controller := c);
    assert forall id :: id in c.peers ==> (Activatable(p, w', id) <==> Activatable(p, w'', id));
    assert forall id :: id in c.peers && Activatable(p, w', id) ==> Activatable(p, w, id);
  }

  lemma HelloKeeps(p: Params, w: World)
    requires Sound(p) && Core(p, w) && Enabled(p, w, NodeHello)
    ensures Core(p, Next(p, w, NodeHello))
  {
    var c := Delivered(w.controller, w.node.link.value.id, Hello);
    HelloStartedOk(ViewOf(p, w), w.node, Heard(p, w.(controller := c)));
    DeliveredKeeps(p, w, HelloStarted(w.node), Hello, w.supply);
  }

  /** A request is made on a link whose upgrade is over. */
  lemma RequestedOk(p: Params, w: World, csr: Csr, heard: set<Cert>)
    requires Sound(p) && Core(p, w) && MayStart(p, w.node) && MayRotate(w.node)
    ensures NodeOk(ViewOf(p, w).(supply := w.supply + 1, heard := heard), RotationStarted(w.node, csr))
    ensures w.node.link.value.id !in w.controller.upgrades
  {
    RotationStartedOk(ViewOf(p, w), w.node, csr, heard);
  }

  lemma RequestKeeps(p: Params, w: World, csr: Csr)
    requires Sound(p) && Core(p, w) && MayStart(p, w.node) && MayRotate(w.node)
    ensures var c := Delivered(w.controller, w.node.link.value.id, Rotate(csr));
            Core(p, w.(controller := c, node := RotationStarted(w.node, csr), supply := w.supply + 1))
  {
    var c := Delivered(w.controller, w.node.link.value.id, Rotate(csr));
    RequestedOk(p, w, csr, Heard(p, w.(controller := c)));
    DeliveredKeeps(p, w, RotationStarted(w.node, csr), Rotate(csr), w.supply + 1);
  }

  lemma ReceivedOk(p: Params, w: World)
    requires Sound(p) && Core(p, w) && MayReceive(p, w.now, w.node)
    ensures NodeOk(ViewOf(p, w), Received(p, w.now, w.node)) && SameLink(w.node, Received(p, w.now, w.node))
  {
    var v := ViewOf(p, w);
    ReceiveKeepsLink(v, w.node);
    match w.node.inbox[0] {
      case HelloOk => HelloAnsweredOk(v, w.node);
      case Rotated(_, _) => RotatedOk(v, w.node);
      case Refused(_) => RefusedOk(v, w.node);
    }
  }

  lemma ReceiveKeeps(p: Params, w: World)
    requires Sound(p) && Core(p, w) && MayReceive(p, w.now, w.node)
    ensures Core(p, w.(node := Received(p, w.now, w.node)))
  {
    ReceivedOk(p, w);
    NodeKeeps(p, w, Received(p, w.now, w.node));
  }

  lemma WriteKeeps(p: Params, w: World, outcome: WriteOutcome)
    requires Sound(p) && Core(p, w) && MayEnd(p, w.node, outcome)
    ensures Core(p, w.(node := WriteEnded(w.now, w.node, outcome)))
  {
    WrittenOk(ViewOf(p, w), w.node, outcome);
    WriteKeepsLink(ViewOf(p, w), w.node, outcome);
    NodeKeeps(p, w, WriteEnded(w.now, w.node, outcome));
  }

  lemma DrainKeeps(p: Params, w: World)
    requires Sound(p) && Core(p, w) && MayStart(p, w.node) && w.node.link.Some?
    ensures Core(p, w.(node := w.node.(writes := w.node.writes + [Keep])))
  {
    DrainedOk(ViewOf(p, w), w.node);
    NodeKeeps(p, w, w.node.(writes := w.node.writes + [Keep]));
  }

  lemma CloseKeeps(p: Params, w: World)
    requires Sound(p) && Core(p, w) && w.node.link.Some?
    ensures Core(p, w.(node := LinkClosed(w.node)))
  {
    ClosedOk(ViewOf(p, w), w.node);
    NodeKeeps(p, w, LinkClosed(w.node));
  }

  lemma CrashKeeps(p: Params, w: World)
    requires Sound(p) && Core(p, w)
    ensures Core(p, w.(node := Restarted(w.node)))
  {
    RestartedOk(ViewOf(p, w), w.node);
    NodeKeeps(p, w, Restarted(w.node));
  }

  // ---------------------------------------------------------------- runs

  predicate NodeStep(s: Step) {
    s.NodeConnect? || s.NodeReceive? || s.NodeDrain? || s.NodeWrite? || s.NodeClose? || s.NodeCrash?
  }

  lemma NodeStepKeeps(p: Params, w: World, s: Step)
    requires Sound(p) && Inv(p, w) && Enabled(p, w, s) && !w.registry.revoked && NodeStep(s)
    ensures Inv(p, Next(p, w, s))
  {
    match s
    case NodeConnect => ConnectKeeps(p, w);
    case NodeReceive => ReceiveKeeps(p, w);
    case NodeDrain => DrainKeeps(p, w);
    case NodeWrite(outcome) => WriteKeeps(p, w, outcome);
    case NodeClose => CloseKeeps(p, w);
    case NodeCrash => CrashKeeps(p, w);
  }

  predicate UpgradeStep(s: Step) {
    s.ControllerAuthenticate? || s.ControllerLookUp? || s.ControllerAdmit? || s.ControllerAccept?
  }

  lemma UpgradeStepKeeps(p: Params, w: World, s: Step)
    requires Sound(p) && Inv(p, w) && Enabled(p, w, s) && !w.registry.revoked && UpgradeStep(s)
    ensures Inv(p, Next(p, w, s))
  {
    match s
    case ControllerAuthenticate => AuthenticateKeeps(p, w);
    case ControllerLookUp(id) => LookUpKeeps(p, w, id);
    case ControllerAdmit(id) => AdmitKeeps(p, w, id);
    case ControllerAccept(id) => AcceptKeeps(p, w, id);
  }

  predicate ActivationStep(s: Step) {
    || s.ControllerCheck? || s.ControllerActivate? || s.ControllerReplace? || s.ControllerConfirm?
    || s.ControllerFinish?
  }

  lemma ActivationStepKeeps(p: Params, w: World, s: Step)
    requires Sound(p) && Inv(p, w) && Enabled(p, w, s) && !w.registry.revoked && ActivationStep(s)
    ensures Inv(p, Next(p, w, s))
  {
    match s
    case ControllerCheck(id) => CheckKeeps(p, w, id);
    case ControllerActivate(id) =>
      if w.controller.peers[id].cert in w.registry.issued {
        DisconnectKeeps(p, w, id);
      } else {
        ActivateKeeps(p, w, id);
      }
    case ControllerReplace(id) => ReplaceKeeps(p, w, id);
    case ControllerConfirm(id) => ConfirmKeeps(p, w, id);
    case ControllerFinish(id) => FinishKeeps(p, w, id);
  }

  predicate LossStep(s: Step) {
    s.Tick? || s.ControllerExpire? || s.ControllerClose? || s.ControllerRestart?
  }

  lemma LossStepKeeps(p: Params, w: World, s: Step)
    requires Sound(p) && Inv(p, w) && Enabled(p, w, s) && !w.registry.revoked && LossStep(s)
    ensures Inv(p, Next(p, w, s))
  {
    match s
    case Tick(elapsed) => TickKeeps(p, w, elapsed);
    case ControllerExpire => ForgetStageKeeps(p, w);
    case ControllerClose(id) => DisconnectKeeps(p, w, id);
    case ControllerRestart => ControllerRestartKeeps(p, w);
  }

  predicate MessageStep(s: Step) {
    s.NodeHello? || s.NodeRotate?
  }

  lemma MessageStepKeeps(p: Params, w: World, s: Step)
    requires Sound(p) && Inv(p, w) && Enabled(p, w, s) && !w.registry.revoked && MessageStep(s)
    ensures Inv(p, Next(p, w, s))
  {
    match s
    case NodeHello => HelloKeeps(p, w);
    case NodeRotate => RequestKeeps(p, w, if w.node.request.Some? then w.node.request.value else w.supply);
  }

  predicate RotationStep(s: Step) {
    s.ControllerReadRotation? || s.ControllerStage?
  }

  lemma RotationStepKeeps(p: Params, w: World, s: Step)
    requires Sound(p) && Inv(p, w) && Enabled(p, w, s) && !w.registry.revoked && RotationStep(s)
    ensures Inv(p, Next(p, w, s))
  {
    match s
    case ControllerReadRotation(id) => ReadRotationKeeps(p, w, id);
    case ControllerStage(signing) => StageKeeps(p, w, signing);
  }

  /** A sound deployment never waits between a check and what follows on it. */
  lemma NothingWaits(p: Params, w: World, s: Step)
    requires Sound(p) && Inv(p, w) && Enabled(p, w, s) && !w.registry.revoked
    ensures
      || NodeStep(s) || MessageStep(s) || UpgradeStep(s) || ActivationStep(s) || RotationStep(s) || LossStep(s)
      || s.RevokeNode?
  {
  }

  lemma StepKeeps(p: Params, w: World, s: Step)
    requires Sound(p) && Inv(p, w) && Enabled(p, w, s)
    ensures Inv(p, Next(p, w, s))
  {
    if w.registry.revoked || s.RevokeNode? {
    } else if NodeStep(s) {
      NodeStepKeeps(p, w, s);
    } else if UpgradeStep(s) {
      UpgradeStepKeeps(p, w, s);
    } else if ActivationStep(s) {
      ActivationStepKeeps(p, w, s);
    } else if LossStep(s) {
      LossStepKeeps(p, w, s);
    } else if MessageStep(s) {
      MessageStepKeeps(p, w, s);
    } else {
      NothingWaits(p, w, s);
      RotationStepKeeps(p, w, s);
    }
  }

  lemma {:induction false} RunKeeps(p: Params, w: World, steps: seq<Step>)
    requires Sound(p) && Inv(p, w) && Runs(p, w, steps)
    ensures Inv(p, After(p, w, steps))
    decreases |steps|
  {
    if steps != [] {
      StepKeeps(p, w, steps[0]);
      RunKeeps(p, Next(p, w, steps[0]), steps[1..]);
    }
  }

  lemma ReachableKeeps(p: Params, w: World)
    requires Sound(p) && Reachable(p, w)
    ensures Inv(p, w)
  {
    var steps :| Runs(p, Enrolled, steps) && After(p, Enrolled, steps) == w;
    RunKeeps(p, Enrolled, steps);
  }

  /** Every reachable state of a sound deployment: the node durably holds the unrevoked certificate. */
  lemma SoundNeverLocksOut(p: Params)
    requires Sound(p)
    ensures NeverLocksOut(p)
  {
    forall w | Reachable(p, w) ensures NotLockedOut(w) {
      ReachableKeeps(p, w);
    }
  }
}
