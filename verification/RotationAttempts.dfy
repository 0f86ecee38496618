/**
 Why a node that is not locked out gets back in: of two consecutive attempts to connect that both close unopened, one
 presents the certificate that is active when the second begins. Anything may happen in between but a restart of the
 node's process, which forgets that there was a first attempt.
 */
module RotationAttempts {
  import opened Prelude
  import opened CertificateRotation
  import opened RotationInvariant
  import opened RotationSafety

  /** An attempt and, when it closes unopened, the next one present both held identities. */
  lemma TwoAttemptsTryBoth(n: Node, id: LinkId, id': LinkId)
    requires n.link.None?
    ensures var first := Connected(n, id);
            var second := Connected(LinkClosed(first), id');
            forall cert :: Holds(n.cached, cert) ==> cert == first.link.value.cert || cert == second.link.value.cert
  {
  }

  /** One attempt and what follows it: the node neither connects again nor restarts, and its link never opens. */
  predicate Unopened(p: Params, w: World, steps: seq<Step>)
    requires Runs(p, w, steps)
    decreases |steps|
  {
    && (w.node.link.Some? ==> !w.node.link.value.phase.Opened?)
    && (steps == [] || (!steps[0].NodeConnect? && !steps[0].NodeCrash?
      && Unopened(p, Next(p, w, steps[0]), steps[1..])))
  }

  predicate NoneToAdopt(n: Node) {
    n.cached.pending.None? && forall w :: w in n.writes ==> !w.Adopt?
  }

  /** After an attempt on the active slot that presented `cert`. */
  predicate ActiveTried(n: Node, cert: Cert) {
    && (n.cached.active == cert || NoneToAdopt(n))
    && (if n.link.Some? then n.link.value.slot.ActiveSlot? else !n.preferActive)
  }

  /** After an attempt on the pending slot that presented `cert`. */
  predicate PendingTried(r: Registry, threats: set<Cert>, n: Node, cert: Cert) {
    && threats <= {cert}
    && (r.active == cert || r.active == n.cached.active)
    && (if n.link.Some? then n.link.value.slot.PendingSlot? && n.link.value.cert == cert
        else n.preferActive || NoneToAdopt(n))
  }

  predicate Tried(p: Params, w: World, slot: Slot, cert: Cert) {
    w.registry.revoked
    || (if slot.ActiveSlot? then ActiveTried(w.node, cert)
      else PendingTried(w.registry, Threats(p, w), w.node, cert))
  }

  lemma FirstAttempt(p: Params, w: World)
    requires Sound(p) && Inv(p, w) && Enabled(p, w, NodeConnect)
    ensures var w' := Next(p, w, NodeConnect);
            Tried(p, w', w'.node.link.value.slot, w'.node.link.value.cert)
  {
    StepKeeps(p, w, NodeConnect);
  }

  predicate StillUnopened(n: Node) {
    n.link.Some? ==> !n.link.value.phase.Opened?
  }

  /** The controller reaches the node through its inbox only. */
  lemma OnlyTheInbox(p: Params, w: World, s: Step)
    requires Enabled(p, w, s) && !NodeStep(s) && !MessageStep(s)
    ensures Next(p, w, s).node == w.node.(inbox := Next(p, w, s).node.inbox)
  {
  }

  lemma ActiveTriedAfterWrite(v: View, n: Node, outcome: WriteOutcome, cert: Cert)
    requires Sound(v.p) && NodeOk(v, n) && MayEnd(v.p, n, outcome)
    requires ActiveTried(n, cert) && StillUnopened(n) && StillUnopened(WriteEnded(v.now, n, outcome))
    ensures ActiveTried(WriteEnded(v.now, n, outcome), cert)
  {
  }

  lemma ActiveTriedAfterReply(v: View, n: Node, cert: Cert)
    requires Sound(v.p) && NodeOk(v, n) && MayReceive(v.p, v.now, n)
    requires ActiveTried(n, cert) && StillUnopened(n) && StillUnopened(Received(v.p, v.now, n))
    ensures ActiveTried(Received(v.p, v.now, n), cert)
  {
  }

  lemma ActiveStaysTried(p: Params, w: World, s: Step, cert: Cert)
    requires Sound(p) && Inv(p, w) && Enabled(p, w, s) && !w.registry.revoked && !s.NodeConnect? && !s.NodeCrash?
    requires ActiveTried(w.node, cert) && StillUnopened(w.node) && StillUnopened(Next(p, w, s).node)
    ensures ActiveTried(Next(p, w, s).node, cert)
  {
    if s.NodeWrite? {
      ActiveTriedAfterWrite(ViewOf(p, w), w.node, s.outcome, cert);
    } else if s.NodeReceive? {
      ActiveTriedAfterReply(ViewOf(p, w), w.node, cert);
    } else if !NodeStep(s) && !MessageStep(s) {
      OnlyTheInbox(p, w, s);
    }
  }

  predicate MayActivate(p: Params, w: World, id: LinkId) {
    id in w.controller.peers && Activatable(p, w, id)
  }

  /** Of two worlds: the certificate of the peer could be activated before. */
  predicate WasThreat(p: Params, w: World, w': World, id: LinkId)
    requires id in w'.controller.peers
  {
    MayActivate(p, w, id) && w.controller.peers[id].cert == w'.controller.peers[id].cert
  }

  lemma AdmitThreat(p: Params, w: World, id: LinkId, k: LinkId)
    requires Core(p, w) && Enabled(p, w, ControllerAdmit(id))
    requires MayActivate(p, w.(controller := Admit(w.controller, id)), k)
    ensures var w' := w.(controller := Admit(w.controller, id));
            || WasThreat(p, w, w', k)
            || (w.node.link.Some? && w'.controller.peers[k].cert == w.node.link.value.cert)
  {
  }

  lemma CheckThreat(p: Params, w: World, id: LinkId, k: LinkId)
    requires TablesOk(w) && Enabled(p, w, ControllerCheck(id))
    requires MayActivate(p, w.(controller := CheckStaged(p, w.now, w.controller, id)), k)
    ensures WasThreat(p, w, w.(controller := CheckStaged(p, w.now, w.controller, id)), k)
  {
  }

  lemma UpgradeStepThreat(p: Params, w: World, s: Step, id: LinkId)
    requires Sound(p) && Core(p, w) && Enabled(p, w, s) && UpgradeStep(s) && MayActivate(p, Next(p, w, s), id)
    ensures || WasThreat(p, w, Next(p, w, s), id)
            || (w.node.link.Some? && Next(p, w, s).controller.peers[id].cert == w.node.link.value.cert)
  {
    if s.ControllerAdmit? {
      AdmitThreat(p, w, s.id, id);
    }
  }

  lemma ActivationStepThreat(p: Params, w: World, s: Step, id: LinkId)
    requires Core(p, w) && Enabled(p, w, s) && ActivationStep(s) && MayActivate(p, Next(p, w, s), id)
    ensures WasThreat(p, w, Next(p, w, s), id)
  {
    if s.ControllerCheck? {
      CheckThreat(p, w, s.id, id);
    }
  }

  /** A message lengthens an inbox: of the current link, or of a peer that has been accepted. */
  lemma MessageStepThreat(p: Params, w: World, s: Step, id: LinkId)
    requires Enabled(p, w, s) && (MessageStep(s) || RotationStep(s)) && MayActivate(p, Next(p, w, s), id)
    ensures WasThreat(p, w, Next(p, w, s), id)
  {
  }

  lemma OtherStepThreat(p: Params, w: World, s: Step, id: LinkId)
    requires Enabled(p, w, s) && !s.NodeConnect? && (NodeStep(s) || LossStep(s) || s.RevokeNode?)
    requires MayActivate(p, Next(p, w, s), id)
    ensures WasThreat(p, w, Next(p, w, s), id)
  {
  }

  /** The only threat that can arise is the certificate of the current link. */
  lemma NoOtherThreats(p: Params, w: World, s: Step)
    requires Sound(p) && Inv(p, w) && Enabled(p, w, s) && !w.registry.revoked && !s.NodeConnect?
    ensures Threats(p, Next(p, w, s)) <= Threats(p, w)
        + (if w.node.link.Some? then {w.node.link.value.cert} else {})
  {
    forall id | MayActivate(p, Next(p, w, s), id)
      ensures Next(p, w, s).controller.peers[id].cert
           in Threats(p, w) + (if w.node.link.Some? then {w.node.link.value.cert} else {})
    {
      if UpgradeStep(s) {
        UpgradeStepThreat(p, w, s, id);
      } else if ActivationStep(s) {
        ActivationStepThreat(p, w, s, id);
      } else if NodeStep(s) || LossStep(s) || s.RevokeNode? {
        OtherStepThreat(p, w, s, id);
      } else {
        NothingWaits(p, w, s);
        MessageStepThreat(p, w, s, id);
      }
    }
  }

  /** What becomes active is a threat. */
  lemma ActivatedWasThreat(p: Params, w: World, s: Step)
    requires Sound(p) && Inv(p, w) && Enabled(p, w, s) && !w.registry.revoked
    ensures var active := Next(p, w, s).registry.active; active == w.registry.active || active in Threats(p, w)
  {
  }

  /** Only a promotion changes the active slot, to what the table lists. */
  lemma PendingTriedAfterWrite(v: View, n: Node, outcome: WriteOutcome, cert: Cert)
    requires Sound(v.p) && NodeOk(v, n) && MayEnd(v.p, n, outcome) && PendingTried(v.registry, v.threats, n, cert)
    requires StillUnopened(n) && StillUnopened(WriteEnded(v.now, n, outcome))
    ensures PendingTried(v.registry, {}, WriteEnded(v.now, n, outcome), cert)
  {
  }

  lemma PendingTriedAfterReply(v: View, n: Node, cert: Cert)
    requires Sound(v.p) && NodeOk(v, n) && MayReceive(v.p, v.now, n) && PendingTried(v.registry, v.threats, n, cert)
    requires StillUnopened(n) && StillUnopened(Received(v.p, v.now, n))
    ensures PendingTried(v.registry, {}, Received(v.p, v.now, n), cert)
  {
  }

  lemma PendingStaysTried(p: Params, w: World, s: Step, cert: Cert)
    requires Sound(p) && Inv(p, w) && Enabled(p, w, s) && !w.registry.revoked && !s.NodeConnect? && !s.NodeCrash?
    requires PendingTried(w.registry, Threats(p, w), w.node, cert) && StillUnopened(w.node)
        && StillUnopened(Next(p, w, s).node)
    ensures var w' := Next(p, w, s); PendingTried(w'.registry, Threats(p, w'), w'.node, cert)
  {
    NoOtherThreats(p, w, s);
    ActivatedWasThreat(p, w, s);
    if s.NodeWrite? {
      PendingTriedAfterWrite(ViewOf(p, w), w.node, s.outcome, cert);
    } else if s.NodeReceive? {
      PendingTriedAfterReply(ViewOf(p, w), w.node, cert);
    } else if !NodeStep(s) && !MessageStep(s) {
      OnlyTheInbox(p, w, s);
    }
  }

  lemma {:induction false} AttemptContinues(p: Params, w: World, steps: seq<Step>, slot: Slot, cert: Cert)
    requires Sound(p) && Inv(p, w) && Runs(p, w, steps) && Unopened(p, w, steps) && Tried(p, w, slot, cert)
    ensures Tried(p, After(p, w, steps), slot, cert)
    decreases |steps|
  {
    if steps != [] {
      var s, w' := steps[0], Next(p, w, steps[0]);
      StepKeeps(p, w, s);
      assert Tried(p, w', slot, cert) by {
        if w.registry.revoked {
        } else if slot.ActiveSlot? {
          ActiveStaysTried(p, w, s, cert);
        } else {
          PendingStaysTried(p, w, s, cert);
        }
      }
      AttemptContinues(p, w', steps[1..], slot, cert);
    }
  }

  /**
   From any reachable disconnected state: an attempt that does not open its link, whatever else happens meanwhile, and
   the next attempt. One of the two presents the certificate that is active when the second one begins.
   */
  lemma ActiveCertificateIsTried(p: Params, w: World, steps: seq<Step>, id: LinkId)
    requires Sound(p) && Reachable(p, w) && Enabled(p, w, NodeConnect)
    requires Runs(p, Next(p, w, NodeConnect), steps) && Unopened(p, Next(p, w, NodeConnect), steps)
    requires After(p, Next(p, w, NodeConnect), steps).node.link.None?
    ensures var first := Next(p, w, NodeConnect).node.link.value;
            var between := After(p, Next(p, w, NodeConnect), steps);
            var second := Connected(between.node, id).link.value;
            between.registry.revoked || between.registry.active == first.cert || between.registry.active == second.cert
  {
    var w' := Next(p, w, NodeConnect);
    ReachableKeeps(p, w);
    FirstAttempt(p, w);
    StepKeeps(p, w, NodeConnect);
    AttemptContinues(p, w', steps, w'.node.link.value.slot, w'.node.link.value.cert);
    RunKeeps(p, w', steps);
  }
}
