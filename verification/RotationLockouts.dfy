/**
 The five ways a node loses its identity for good, each as a concrete run for every setting of the
 other parameters; with RotationSafety they give the exact condition for lockout freedom.
 */
module RotationLockouts {
  import opened Prelude
  import opened CertificateRotation
  import opened RotationInvariant
  import RotationSafety

  lemma {:induction false} RunsOn(p: Params, w: World, steps: seq<Step>, s: Step)
    requires Runs(p, w, steps) && Enabled(p, After(p, w, steps), s)
    ensures Runs(p, w, steps + [s]) && After(p, w, steps + [s]) == Next(p, After(p, w, steps), s)
    decreases |steps|
  {
    if steps == [] {
      assert steps + [s] == [s];
      assert Runs(p, Next(p, w, s), [s][1..]);
    } else {
      assert (steps + [s])[1..] == steps[1..] + [s];
      RunsOn(p, Next(p, w, steps[0]), steps[1..], s);
    }
  }

  /** One more step of a run. */
  lemma Do(p: Params, w: World, s: Step) returns (w': World)
    requires Reachable(p, w) && Enabled(p, w, s)
    ensures w' == Next(p, w, s) && Reachable(p, w')
  {
    w' := Next(p, w, s);
    var steps :| Runs(p, Enrolled, steps) && After(p, Enrolled, steps) == w;
    RunsOn(p, Enrolled, steps, s);
  }

  /** The upgrade request of the current link passes the table. */
  lemma Admitted(p: Params, w: World, id: LinkId) returns (w': World)
    requires Reachable(p, w) && Enabled(p, w, ControllerAuthenticate) && w.node.link.value.id == id
        && w.controller.upgrades == map[]
    requires var stage := LiveStage(p, w.now, w.controller.stage);
             Upgraded(stage, Upgrade(w.node.link.value.cert, stage,
               Some(IsActive(w.registry, w.node.link.value.cert)))).Some?
    ensures Reachable(p, w')
    ensures var stage := LiveStage(p, w.now, w.controller.stage);
            var peer := Upgraded(stage, Upgrade(w.node.link.value.cert, stage,
                Some(IsActive(w.registry, w.node.link.value.cert)))).value;
            w' == w.(controller := w.controller.(stage := stage, peers := w.controller.peers[id := peer]))
  {
    w' := Do(p, w, ControllerAuthenticate);
    w' := Do(p, w', ControllerLookUp(id));
    w' := Do(p, w', ControllerAdmit(id));
    assert w'.controller.upgrades == map[];
  }

  const Original := Held(0, None)
  const Rotating := Held(0, Some(Pending(3, 0)))

  /** An accepted link on which certificate 3 was staged and adopted; the link is gone again. */
  const Staged := World(0, Registry(0, {0}, false),
                        Controller(map[], map[1 := Peer(0, None, None, Accepted, [])], Some(Stage(3, 2, 0)), Some(0),
                          {}, {}),
                        Node(Rotating, Rotating, false, None, [], [], None), 4)

  /** The first link of a freshly enrolled node, accepted and open. */
  const Online := World(0, Registry(0, {0}, false),
                        Controller(map[], map[1 := Peer(0, None, None, Accepted, [])], None, None, {}, {}),
                        Node(Original, Original, false, Some(Link(1, ActiveSlot, 0, Opened, None)), [], [], None), 2)

  /** The node has said hello on its first link. */
  lemma FirstHello(p: Params) returns (w: World)
    ensures Reachable(p, w)
    ensures w.(node := Online.node, controller := Online.controller) == Online
    ensures w.controller == Online.controller.(peers := map[1 := Peer(0, None, None, AwaitingHello, [Hello])])
    ensures w.node == Online.node.(link := Some(Link(1, ActiveSlot, 0, HelloSent(None), None)))
  {
    assert Runs(p, Enrolled, []) && After(p, Enrolled, []) == Enrolled;
    w := Do(p, Enrolled, NodeConnect);
    w := Admitted(p, w, 1);
    w := Do(p, w, NodeHello);
    assert [] + [Hello] == [Hello];
  }

  lemma OnlineIsReachable(p: Params)
    ensures Reachable(p, Online)
  {
    var w := FirstHello(p);
    assert [Hello][1..] == [];
    w := Do(p, w, ControllerAccept(1));
    assert [] + [HelloOk] == [HelloOk] && [HelloOk][1..] == [];
    w := Do(p, w, NodeReceive);
    assert w == Online;
  }

  predicate OpenAlone(w: World, id: LinkId) {
    && w.controller.peers == map[id := Peer(0, None, None, Accepted, [])] && w.controller.signing == {}
    && w.node.link == Some(Link(id, ActiveSlot, 0, Opened, None)) && w.node.inbox == [] && w.node.writes == []
  }

  /** On its open link the node asks for a certificate and the controller starts signing one. */
  lemma RequestOnLink(p: Params, w: World, id: LinkId) returns (w': World)
    requires Reachable(p, w) && OpenAlone(w, id) && w.node.request.None?
    requires !w.registry.revoked && w.controller.stage.None? && w.controller.lastRotation.None?
    ensures Reachable(p, w')
    ensures w' == w.(supply := w.supply + 1,
                     controller := w.controller.(signing := {Signing(id, w.supply, w.now)}),
                     node := w.node.(request := Some(w.supply),
                       link := Some(Link(id, ActiveSlot, 0, Opened, Some(w.supply)))))
  {
    var csr := w.supply;
    w' := Do(p, w, NodeRotate);
    assert [] + [Rotate(csr)] == [Rotate(csr)] && [Rotate(csr)][1..] == [];
    w' := Do(p, w', ControllerReadRotation(id));
    assert w'.controller.peers == w.controller.peers;
  }

  /** The certificate is staged and the node queues its adoption. */
  lemma RotateOnLink(p: Params, w: World, id: LinkId) returns (w': World)
    requires Reachable(p, w) && OpenAlone(w, id) && w.node.request.None?
    requires !w.registry.revoked && w.controller.stage.None? && w.controller.lastRotation.None?
    ensures Reachable(p, w')
    ensures w' == w.(supply := w.supply + 2,
                     controller := w.controller.(stage := Some(Stage(w.supply + 1, w.supply, w.now)),
                       lastRotation := Some(w.now)),
                     node := w.node.(request := Some(w.supply), writes := [Adopt(w.supply + 1)]))
  {
    var csr := w.supply;
    w' := RequestOnLink(p, w, id);
    w' := Do(p, w', ControllerStage(Signing(id, csr, w.now)));
    assert w'.controller.signing == {} && w'.node.inbox == [Rotated(csr, csr + 1)];
    w' := Do(p, w', NodeReceive);
    assert w'.node.writes == [Adopt(csr + 1)] && w'.node.inbox == [];
  }

  lemma StagedIsReachable(p: Params)
    ensures Reachable(p, Staged)
  {
    OnlineIsReachable(p);
    var w := RotateOnLink(p, Online, 1);
    w := Do(p, w, NodeWrite(Written(false)));
    w := Do(p, w, NodeClose);
    assert w.node.writes == [];
    assert w == Staged;
  }

  /** The node reconnects with its old certificate on link `id`; its hello has arrived. */
  function HelloOnOld(w: World, id: LinkId): World {
    w.(controller := w.controller.(peers := w.controller.peers[id := Peer(0, None, None, AwaitingHello, [Hello])]),
       node := w.node.(link := Some(Link(id, ActiveSlot, 0, HelloSent(Some(0)), None)), inbox := []),
       supply := id + 1)
  }

  /** The hello is accepted; the reply is under way. */
  function AcceptedOnOld(w: World, id: LinkId): World {
    w.(controller := w.controller.(peers := map[id := Peer(0, None, None, Accepted, [])]),
       node := w.node.(link := Some(Link(id, ActiveSlot, 0, HelloSent(Some(0)), None)), inbox := [HelloOk]),
       supply := id + 1)
  }

  predicate BackOnOld(p: Params, w: World) {
    && MayStart(p, w.node) && MayProceed(p, w.node) && w.node.link.None? && w.node.preferActive
      && w.node.cached == Rotating
    && w.registry.active == 0 && !w.registry.revoked
    && w.supply !in w.controller.peers && w.controller.upgrades == map[]
    && (w.controller.stage.Some? ==> w.controller.stage.value.cert != 0 && Live(p, w.now, w.controller.stage.value))
  }

  lemma ReturnToOld(p: Params, w: World) returns (w': World)
    requires Reachable(p, w) && BackOnOld(p, w)
    ensures w' == HelloOnOld(w, w.supply) && Reachable(p, w')
  {
    w' := Do(p, w, NodeConnect);
    w' := Admitted(p, w', w.supply);
    w' := Do(p, w', NodeHello);
    assert [] + [Hello] == [Hello];
  }

  lemma ReconnectOnOld(p: Params, w: World) returns (w': World)
    requires Reachable(p, w) && BackOnOld(p, w)
    ensures w' == AcceptedOnOld(w, w.supply) && Reachable(p, w')
  {
    w' := ReturnToOld(p, w);
    assert [Hello][1..] == [] && [] + [HelloOk] == [HelloOk];
    w' := Do(p, w', ControllerAccept(w.supply));
  }

  /** The node connects with the pending certificate `cert`, which the controller still has staged; its hello passes. */
  lemma ReconnectOnStaged(p: Params, w: World, cert: Cert, csr: Csr) returns (w': World)
    requires Reachable(p, w) && MayProceed(p, w.node) && MayStart(p, w.node) && w.node.link.None?
        && w.controller.upgrades == map[] && !w.node.preferActive
    requires w.node.cached.pending.Some? && w.node.cached.pending.value.cert == cert
    requires !IsActive(w.registry, cert) && w.supply !in w.controller.peers && w.node.inbox == []
    requires w.controller.stage.Some? && w.controller.stage.value.cert == cert
        && Live(p, w.now, w.controller.stage.value)
    ensures Reachable(p, w') && w'.registry == w.registry && w'.now == w.now
    ensures Candidate(w'.controller, w.supply, Checked) && w'.controller.peers[w.supply].cert == cert
    ensures w'.controller == w.controller.(peers := w'.controller.peers)
    ensures w'.controller.peers.Keys == w.controller.peers.Keys + {w.supply}
    ensures w'.node == w.node.(link := w'.node.link)
    ensures w'.node.link.Some? && w'.node.link.value.id == w.supply && w'.node.link.value.slot == PendingSlot
    ensures w'.node.link.value.phase.HelloSent? && w'.supply == w.supply + 1
  {
    var id := w.supply;
    w' := Do(p, w, NodeConnect);
    w' := Admitted(p, w', id);
    w' := Do(p, w', NodeHello);
    w' := Do(p, w', ControllerCheck(id));
  }

  /** Accepted on the old certificate, the node receives the reply when its pending one is too old. */
  lemma OutlivePending(p: Params, w: World, id: LinkId) returns (w': World)
    requires Reachable(p, w) && w.now == 0 && w.node.writes == [] && w.node.inbox == [HelloOk]
    requires w.node.link == Some(Link(id, ActiveSlot, 0, HelloSent(Some(0)), None))
    ensures Reachable(p, w')
    ensures w' == w.(now := p.nodeTtl,
                     node := w.node.(link := Some(Link(id, ActiveSlot, 0, Replied, None)), inbox := [],
                       writes := [Drop(id)]))
  {
    w' := Do(p, w, Tick(p.nodeTtl));
    assert [HelloOk][1..] == [] && [] + [Drop(id)] == [Drop(id)];
    w' := Do(p, w', NodeReceive);
  }

  /** A staged candidate has passed its check; the node gave up on it. */
  lemma LeftCandidate(p: Params) returns (w: World)
    requires p.controllerTtl > 0
    ensures Reachable(p, w) && w.supply == 5 && w.controller.peers.Keys == {1, 4}
    ensures Candidate(w.controller, 4, Checked) && w.controller.peers[4].cert == 3
    ensures w == Staged.(supply := 5, controller := Staged.controller.(peers := w.controller.peers),
                         node := Staged.node.(preferActive := true))
  {
    StagedIsReachable(p);
    w := ReconnectOnStaged(p, Staged, 3, 2);
    w := Do(p, w, NodeClose);
  }

  /** Its open check is over and the table write is outstanding. */
  lemma AbandonedCandidate(p: Params) returns (w: World)
    requires p.controllerTtl > 0 && !p.atomicActivation
    ensures Reachable(p, w) && w.supply == 5 && w.controller.peers.Keys == {1, 4}
    ensures w == Staged.(supply := 5, controller := Staged.controller.(peers := w.controller.peers, landing := {3}),
                         node := Staged.node.(preferActive := true))
  {
    w := LeftCandidate(p);
    w := Do(p, w, ControllerBeginActivation(4));
  }

  /** The open check of a staged candidate is over, the node gives up waiting, is accepted on the old
      certificate, and only then does the outstanding table write land. */
  lemma LateActivationLocksOut(p: Params)
    requires p.controllerTtl > 0 && p.nodeTtl > 0 && !p.atomicActivation
    ensures !NeverLocksOut(p)
  {
    var w := AbandonedCandidate(p);
    w := ReconnectOnOld(p, w);
    w := OutlivePending(p, w, 5);
    w := Do(p, w, NodeWrite(Written(false)));
    w := Do(p, w, ControllerLand(3));
    assert !NotLockedOut(w);
  }

  /** Back on its old certificate, the node has let its pending one grow too old; the drop is outstanding. */
  lemma DropOutstanding(p: Params) returns (w: World)
    requires p.controllerTtl > 0 && p.nodeTtl > 0
    ensures Reachable(p, w)
    ensures w == World(p.nodeTtl, Staged.registry,
                       Staged.controller.(peers := map[5 := Peer(0, None, None, Accepted, [])]),
                       Node(Rotating, Rotating, true, Some(Link(5, ActiveSlot, 0, Replied, None)), [Drop(5)], [],
                            None), 6)
  {
    StagedIsReachable(p);
    w := Do(p, Staged, NodeConnect);
    w := Do(p, w, NodeClose);
    w := ReconnectOnOld(p, w);
    w := OutlivePending(p, w, 5);
  }

  /** A drop that commits but reports a failure leaves a process that still uses the dropped certificate. */
  lemma UnnoticedDrop(p: Params) returns (w: World)
    requires p.controllerTtl > p.nodeTtl > 0 && p.faultyWrites
    ensures Reachable(p, w) && w.now == p.nodeTtl && w.registry == Staged.registry && w.supply == 6
    ensures w.controller.peers.Keys == {5} && w.controller.stage == Some(Stage(3, 2, 0))
        && w.controller.upgrades == map[]
    ensures w.node == Node(Original, Rotating, false, None, [], [], None)
  {
    w := DropOutstanding(p);
    w := Do(p, w, NodeWrite(WrittenButReportedFailed));
  }

  /** A controller that remembers the certificate longer than the node then activates it. */
  lemma FaultyDropLocksOut(p: Params)
    requires p.controllerTtl > p.nodeTtl > 0 && p.faultyWrites
    ensures !NeverLocksOut(p)
  {
    var w := UnnoticedDrop(p);
    w := ReconnectOnStaged(p, w, 3, 2);
    w := Do(p, w, ControllerActivate(6));
    assert !NotLockedOut(w);
  }

  /** The adoption of certificate 7 and, behind it, the drop of what was pending before are both queued. */
  function AdoptionThenDrop(p: Params): World {
    World(p.nodeTtl, Registry(0, {0}, false),
          Controller(map[], map[9 := Peer(0, None, None, Accepted, [])], Some(Stage(7, 6, p.nodeTtl)), Some(p.nodeTtl),
            {}, {}),
          Node(Rotating, Rotating, true, Some(Link(9, ActiveSlot, 0, Replied, None)), [Adopt(7), Drop(9)], [], Some(6)),
            10)
  }

  /** After a controller restart the node failed to connect with its pending certificate, which is nearly too old. */
  lemma ControllerForgot(p: Params) returns (w: World)
    requires p.nodeTtl > 0
    ensures Reachable(p, w)
    ensures w == World(p.nodeTtl - 1, Staged.registry, IdleController,
                       Node(Rotating, Rotating, true, None, [], [], None), 5)
  {
    StagedIsReachable(p);
    w := Do(p, Staged, ControllerRestart);
    w := Do(p, w, NodeConnect);
    w := Do(p, w, NodeClose);
    w := Do(p, w, Tick(p.nodeTtl - 1));
  }

  /** The node is back on its old certificate at the last moment it keeps the pending one. */
  lemma LastMoment(p: Params) returns (w: World)
    requires p.controllerTtl > 0 && p.nodeTtl > 0
    ensures Reachable(p, w) && OpenAlone(w, 5)
    ensures w == World(p.nodeTtl, Staged.registry, IdleController.(peers := w.controller.peers),
                       Node(Rotating, Rotating, false, w.node.link, [], [], None), 6)
  {
    w := ControllerForgot(p);
    w := ReconnectOnOld(p, w);
    assert [HelloOk][1..] == [];
    w := Do(p, w, NodeReceive);
    w := Do(p, w, Tick(1));
  }

  lemma AdoptionThenDropIsReachable(p: Params)
    requires p.controllerTtl > 0 && p.nodeTtl > 0 && p.writes.Overlapping?
    ensures Reachable(p, AdoptionThenDrop(p))
  {
    var w := LastMoment(p);
    w := RotateOnLink(p, w, 5);
    w := Do(p, w, NodeClose);
    w := Do(p, w, NodeConnect);
    w := Do(p, w, NodeClose);
    w := ReconnectOnOld(p, w);
    assert [HelloOk][1..] == [];
    w := Do(p, w, NodeReceive);
    assert w.node.writes == [Adopt(7), Drop(9)];
    assert w == AdoptionThenDrop(p);
  }

  /** Between the two writes the node presents the adopted certificate. */
  lemma AdoptedPresented(p: Params) returns (w: World)
    requires p.controllerTtl > 0 && p.nodeTtl > 0 && p.writes.Overlapping?
    ensures Reachable(p, w) && !w.registry.revoked && 7 !in w.registry.issued
    ensures Candidate(w.controller, 10, Checked) && w.controller.peers[10].cert == 7
    ensures w.node.writes == [Drop(9)] && CurrentLink(w.node) == Some(10)
    ensures w.node.stored.active == 0 && w.node.cached.active == 0
  {
    AdoptionThenDropIsReachable(p);
    w := Do(p, AdoptionThenDrop(p), NodeWrite(Written(false)));
    w := Do(p, w, NodeClose);
    assert w.node.writes == [Drop(9)];
    w := ReconnectOnStaged(p, w, 7, 6);
  }

  /** The drop then erases it. */
  lemma SlowWritesLockOut(p: Params)
    requires p.controllerTtl > 0 && p.nodeTtl > 0 && p.writes.Overlapping?
    ensures !NeverLocksOut(p)
  {
    var w := AdoptedPresented(p);
    w := Do(p, w, ControllerActivate(10));
    w := Do(p, w, NodeWrite(Written(false)));
    assert !NotLockedOut(w);
  }

  /** A staged candidate waits for its activation while a hello on the active certificate waits for its answer. */
  lemma BothWait(p: Params) returns (w: World)
    requires p.controllerTtl > 0 && !p.atomicAcceptance
    ensures Reachable(p, w) && w.now == 0 && w.registry == Staged.registry && w.controller.peers.Keys == {1, 4, 5}
    ensures Candidate(w.controller, 4, Checked) && w.controller.peers[4].cert == 3
    ensures w.controller.peers[5] == Peer(0, None, None, Verified(true), [])
    ensures w.node == Staged.node.(preferActive := true, link := Some(Link(5, ActiveSlot, 0, HelloSent(Some(0)), None)))
  {
    w := LeftCandidate(p);
    w := ReturnToOld(p, w);
    assert [Hello][1..] == [];
    w := Do(p, w, ControllerReadHello(5));
  }

  /** The candidate is activated and the other one accepted all the same. */
  lemma BothPass(p: Params) returns (w: World)
    requires p.controllerTtl > 0 && !p.atomicAcceptance
    ensures Reachable(p, w) && w.now == 0 && w.registry.active == 3 && !w.registry.revoked
    ensures w.node == Node(Rotating, Rotating, true, Some(Link(5, ActiveSlot, 0, HelloSent(Some(0)), None)), [],
                           [HelloOk], None)
  {
    w := BothWait(p);
    w := Do(p, w, ControllerActivate(4));
    w := Do(p, w, ControllerAcceptVerified(5));
    assert [] + [HelloOk] == [HelloOk];
  }

  /** A hello that read the table before another candidate was activated is accepted after it, and drops that candidate;
      its node, told that the old certificate is still good, erases the new one. */
  lemma LateAcceptanceLocksOut(p: Params)
    requires p.controllerTtl > 0 && p.nodeTtl > 0 && !p.atomicAcceptance
    ensures !NeverLocksOut(p)
  {
    var w := BothPass(p);
    w := OutlivePending(p, w, 5);
    w := Do(p, w, NodeWrite(Written(false)));
    assert !NotLockedOut(w);
  }

  /** Behind an outstanding drop the node has connected with the certificate that is being dropped. */
  lemma ConnectedBehindDrop(p: Params) returns (w: World)
    requires p.controllerTtl > p.nodeTtl > 0 && !p.writes.Prompt?
    ensures Reachable(p, w) && w.registry == Staged.registry && w.now == p.nodeTtl
    ensures w.controller.stage == Some(Stage(3, 2, 0)) && w.controller.upgrades == map[]
    ensures 6 in w.controller.peers && w.controller.peers[6] == Peer(3, w.controller.stage, None, AwaitingHello, [])
    ensures w.node == Node(Rotating, Rotating, false, Some(Link(6, PendingSlot, 3, Connecting, None)), [Drop(5)], [],
        None)
  {
    w := DropOutstanding(p);
    w := Do(p, w, NodeClose);
    w := Do(p, w, NodeConnect);
    w := Admitted(p, w, 6);
  }

  /** The drop ends, and the link goes on with its hello. */
  lemma HelloAfterDrop(p: Params) returns (w: World)
    requires p.controllerTtl > p.nodeTtl > 0 && !p.writes.Prompt?
    ensures Reachable(p, w) && w.registry == Staged.registry && w.node.stored == Original
    ensures Candidate(w.controller, 6, Checked) && w.controller.peers[6].cert == 3
  {
    w := ConnectedBehindDrop(p);
    w := Do(p, w, NodeWrite(Written(false)));
    w := Do(p, w, NodeHello);
    w := Do(p, w, ControllerCheck(6));
  }

  /** What was dropped is activated. */
  lemma ReconnectBehindDropLocksOut(p: Params)
    requires p.controllerTtl > p.nodeTtl > 0 && !p.writes.Prompt?
    ensures !NeverLocksOut(p)
  {
    var w := HelloAfterDrop(p);
    w := Do(p, w, ControllerActivate(6));
    assert !NotLockedOut(w);
  }

  /** The exact condition, for every positive pair of lifetimes and every cooldown. */
  lemma LockoutFreedom(p: Params)
    requires p.controllerTtl > 0 && p.nodeTtl > 0
    ensures NeverLocksOut(p) <==>
              && p.atomicActivation && p.atomicAcceptance && !p.writes.Overlapping?
              && (p.faultyWrites || p.writes.OneAtATime? ==> p.controllerTtl <= p.nodeTtl)
  {
    if Sound(p) {
      RotationSafety.SoundNeverLocksOut(p);
    } else if !p.atomicActivation {
      LateActivationLocksOut(p);
    } else if !p.atomicAcceptance {
      LateAcceptanceLocksOut(p);
    } else if p.writes.Overlapping? {
      SlowWritesLockOut(p);
    } else if p.faultyWrites {
      FaultyDropLocksOut(p);
    } else {
      ReconnectBehindDropLocksOut(p);
    }
  }
}
