/**
 The invariant behind lockout freedom, in two halves: what the node and the certificates that could still be activated
 allow, and what the controller's tables say about the current link; and what each step does to the node's half.
 */
module RotationInvariant {
  import opened Prelude
  import opened CertificateRotation

  predicate Sound(p: Params) {
    && p.atomicActivation && p.atomicAcceptance && !p.writes.Overlapping?
    && (p.faultyWrites || p.writes.OneAtATime? ==> p.controllerTtl <= p.nodeTtl)
  }

  function CurrentLink(n: Node): Option<LinkId> {
    if n.link.Some? then Some(n.link.value.id) else None
  }

  /** A peer that could still turn its certificate into the active one; a link left without a hello stays silent. */
  predicate Activatable(p: Params, w: World, id: LinkId)
    requires id in w.controller.peers
  {
    var peer := w.controller.peers[id];
    && peer.cert !in w.registry.issued
    && (peer.progress.Checked?
        || (peer.progress.AwaitingHello? && peer.staged.Some? && Live(p, w.now, peer.staged.value)
            && (peer.inbox != [] || CurrentLink(w.node) == Some(id))))
  }

  predicate HelloHeard(peer: Peer) {
    peer.progress.Checked? || peer.inbox != []
  }

  /** The certificates that could still become active. */
  function Threats(p: Params, w: World): set<Cert> {
    set id | id in w.controller.peers && Activatable(p, w, id) :: w.controller.peers[id].cert
  }

  /** Those among them whose hello has arrived. */
  function Heard(p: Params, w: World): set<Cert> {
    set id | id in w.controller.peers && Activatable(p, w, id) && HelloHeard(w.controller.peers[id]) ::
      w.controller.peers[id].cert
  }

  // ---------------------------------------------------------------- the node's half

  /** What the node's half depends on besides the node: parameters, time, table, stage and what could be activated. */
  datatype View = View(
    p: Params, now: Millis, registry: Registry, stage: Option<Stage>, supply: nat, threats: set<Cert>, heard: set<Cert>)
  {
    /** No run can make `cert` the active certificate any more. */
    predicate Dead(cert: Cert) {
      && registry.active != cert && cert !in threats
      && (stage.Some? && stage.value.cert == cert ==> !Live(p, now, stage.value))
    }

    predicate NotAfterStage(cert: Cert) {
      cert < supply && (stage.Some? ==> cert <= stage.value.cert)
    }

    predicate Adoptable(cached: Held, cert: Cert) {
      NotAfterStage(cert) && (cached.pending.Some? ==> cached.pending.value.cert <= cert)
    }

    /** Nothing is under way and the active slot is the active certificate. */
    predicate Calm(n: Node) {
      threats == {} && registry.active == n.cached.active
    }
  }

  function ViewOf(p: Params, w: World): View {
    View(p, w.now, w.registry, w.controller.stage, w.supply, Threats(p, w), Heard(p, w))
  }

  /** What is true of both the durable and the cached document. */
  predicate HeldOk(v: View, held: Held) {
    && Holds(held, v.registry.active)
    && held.active in v.registry.issued
    && (held.pending.Some? ==>
          && held.pending.value.cert != held.active && held.pending.value.stagedAt <= v.now
          && v.NotAfterStage(held.pending.value.cert)
          && (v.stage.Some? && v.stage.value.cert == held.pending.value.cert ==>
                v.stage.value.stagedAt <= held.pending.value.stagedAt))
  }

  /** Everything that could be activated is held, durably and in the cache. */
  predicate ThreatsHeld(threats: set<Cert>, n: Node) {
    forall cert :: cert in threats ==>
      Holds(n.stored, cert) && n.cached.pending.Some? && n.cached.pending.value.cert == cert
  }

  predicate CachedPendingOk(v: View, n: Node) {
    n.cached.pending.Some? && !Holds(n.stored, n.cached.pending.value.cert) ==> v.Dead(n.cached.pending.value.cert)
  }

  /** The link a write was made for waits for it. */
  predicate Waits(n: Node, id: LinkId) {
    n.link.Some? && n.link.value.id == id && n.link.value.phase.Replied?
  }

  /** A link opened while a write is outstanding has not said hello. */
  predicate Aside(p: Params, n: Node) {
    n.link.Some? ==> p.writes.OneAtATime? && n.link.value.phase.Connecting?
  }

  predicate WaitsOrAside(v: View, n: Node, id: LinkId) {
    id < v.supply && (Waits(n, id) || (Aside(v.p, n) && CurrentLink(n) != Some(id)))
  }

  predicate WriteOk(v: View, n: Node, w: Write) {
    match w
    case Promote(id) =>
      && (n.cached.pending.Some? ==> n.cached.pending.value.cert == v.registry.active) && v.threats == {}
      && WaitsOrAside(v, n, id)
    case Drop(id) =>
      && n.cached.pending.Some? && v.now - n.cached.pending.value.stagedAt >= v.p.nodeTtl && v.Calm(n)
      && WaitsOrAside(v, n, id)
    case Adopt(cert) =>
      && v.registry.active == n.cached.active && v.threats <= {cert} && v.heard == {}
      && v.Adoptable(n.cached, cert) && cert != n.cached.active
      && ((n.link.Some? && n.link.value.phase.Opened?) || Aside(v.p, n))
      && (n.link.Some? && n.link.value.phase.Connecting? && n.link.value.slot.PendingSlot? ==> n.cached.pending.Some?)
      && (forall m :: m in n.inbox && m.Rotated? ==> cert <= m.cert)
    case Keep => n.link.Some? ==> !n.link.value.phase.Replied?
  }

  /** Where the certificate of a link stands that has not been answered yet. */
  predicate Presented(v: View, cached: Held, link: Link) {
    if link.slot.ActiveSlot? then
      link.cert in v.registry.issued && (link.cert == v.registry.active ==> cached.active == v.registry.active)
    else
      || (cached.pending.Some? && link.cert == cached.pending.value.cert)
      || (link.cert == v.registry.active && cached.active == v.registry.active && cached.pending.None?)
      || v.Dead(link.cert)
  }

  predicate LinkOk(v: View, n: Node, link: Link) {
    && link.id < v.supply && link.cert < v.supply
    && (link.rotating.Some? ==> link.phase.Opened?)
    && (link.phase.Connecting? || link.phase.HelloSent? ==> Presented(v, n.cached, link))
    && (link.phase.Connecting? ==> n.inbox == [])
    && (link.phase.HelloSent? ==>
          && (n.writes == [] || n.writes == [Keep])
          && (link.phase.loaded.Some? <==> n.cached.pending.Some?)
          && (link.phase.loaded.Some? ==> link.phase.loaded.value == n.cached.pending.value.stagedAt)
          && (HelloOk in n.inbox ==> v.registry.active == link.cert && v.threats == {}))
    && (link.phase.Replied? ==> |n.writes| == 1)
    && (link.phase.Opened? ==> v.Calm(n))
  }

  /** Certificates still on their way to the node arrive in the order they were staged, and none is active yet. */
  predicate InboxOk(v: View, n: Node) {
    && (forall m :: m in n.inbox && m.Rotated? ==>
          v.Adoptable(n.cached, m.cert) && m.cert != v.registry.active && v.threats == {})
    && (forall i, j :: 0 <= i < j < |n.inbox| && n.inbox[i].Rotated? && n.inbox[j].Rotated? ==>
          n.inbox[i].cert <= n.inbox[j].cert)
  }

  predicate NodeOk(v: View, n: Node) {
    && HeldOk(v, n.stored)
    && HeldOk(v, n.cached)
    && ThreatsHeld(v.threats, n)
    && CachedPendingOk(v, n)
    && |n.writes| <= 1 && (|n.writes| == 1 ==> WriteOk(v, n, n.writes[0]))
    && (if n.link.None? then n.inbox == [] else LinkOk(v, n, n.link.value))
    && InboxOk(v, n)
  }

  // ---------------------------------------------------------------- the controller's half

  predicate PeerOk(supply: nat, id: LinkId, peer: Peer) {
    && id < supply
    && !peer.progress.Landing? && !peer.progress.Verified?
    && (peer.staged.Some? ==> peer.staged.value.cert == peer.cert)
    && (peer.progress.Checked? ==> peer.staged.Some?)
  }

  predicate TablesOk(w: World) {
    var c, supply := w.controller, w.supply;
    && c.landing == {}
    && (c.stage.Some? ==> c.stage.value.stagedAt <= w.now && c.stage.value.cert < supply)
    && (forall cert :: cert in w.registry.issued ==> cert < supply)
    && w.registry.active in w.registry.issued
    && (forall s :: s in c.signing ==>
          && s.startedAt <= w.now && s.link < supply && s.link !in c.upgrades
          && (s.link in c.peers ==> c.peers[s.link].progress.Accepted?))
    && (forall id :: id in c.peers ==> PeerOk(supply, id, c.peers[id]))
    && (forall id :: id in c.upgrades ==> id < supply && id !in c.peers)
  }

  /** What the tables hold of a link that has not said hello. */
  predicate SilentOk(c: Controller, link: Link) {
    link.phase.Connecting? ==>
      && (forall s :: s in c.signing ==> s.link != link.id)
      && (link.id in c.peers ==> c.peers[link.id].progress.AwaitingHello? && c.peers[link.id].inbox == [])
  }

  predicate Answerable(progress: Progress) {
    progress.Committed? || progress.Replaced? || progress.Confirming? || progress.Accepted?
  }

  /** Once the certificate of the current link was written or the link accepted, nothing else can be activated. */
  predicate AnswerOk(v: View, peer: Peer) {
    && (Answerable(peer.progress) ==> v.threats == {})
    && (peer.progress.Confirming? && peer.progress.active ==> v.registry.active == peer.cert)
    && (peer.progress.Accepted? && v.stage.Some? && Live(v.p, v.now, v.stage.value) ==>
          v.stage.value.cert != v.registry.active)
  }

  /** A link that presents the staged certificate is known to do so. */
  predicate StageSeen(v: View, c: Controller, link: Link) {
    v.stage.Some? && Live(v.p, v.now, v.stage.value) && v.stage.value.cert == link.cert ==>
      && (link.id in c.upgrades ==> c.upgrades[link.id].staged == v.stage)
      && (link.id in c.peers && c.peers[link.id].progress.AwaitingHello? && c.peers[link.id].staged.None? ==>
            c.peers[link.id].activated == v.stage)
  }

  predicate CurrentOk(v: View, c: Controller, link: Link) {
    && (link.id in c.peers ==> c.peers[link.id].cert == link.cert && AnswerOk(v, c.peers[link.id]))
    && (link.id in c.upgrades ==> c.upgrades[link.id].cert == link.cert && link.phase.Connecting?)
    && SilentOk(c, link) && StageSeen(v, c, link)
  }

  predicate Core(p: Params, w: World) {
    var v := ViewOf(p, w);
    && TablesOk(w)
    && NodeOk(v, w.node)
    && (w.node.link.Some? ==> CurrentOk(v, w.controller, w.node.link.value))
  }

  predicate Inv(p: Params, w: World) {
    w.registry.revoked || Core(p, w)
  }

  // ---------------------------------------------------------------- fewer threats

  /** Fewer threats, no or the same stage, and a later time. */
  predicate Milder(v: View, v': View) {
    && v' == v.(now := v'.now, stage := v'.stage, threats := v'.threats, heard := v'.heard)
    && v.now <= v'.now && (v'.stage == v.stage || v'.stage.None?) && v'.threats <= v.threats && v'.heard <= v.heard
  }

  lemma MilderOk(v: View, v': View, n: Node)
    requires NodeOk(v, n) && Milder(v, v')
    ensures NodeOk(v', n)
  {
  }

  /** Every peer that can be activated could be before, and had said hello if it has now. */
  predicate NoNewThreat(p: Params, w: World, w': World) {
    forall id :: id in w'.controller.peers && Activatable(p, w', id) ==>
      && id in w.controller.peers && Activatable(p, w, id)
      && w'.controller.peers[id].cert == w.controller.peers[id].cert
      && (HelloHeard(w'.controller.peers[id]) ==> HelloHeard(w.controller.peers[id]))
  }

  lemma ThreatsShrink(p: Params, w: World, w': World)
    requires NoNewThreat(p, w, w')
    ensures Threats(p, w') <= Threats(p, w) && Heard(p, w') <= Heard(p, w)
  {
  }

  // ---------------------------------------------------------------- steps of the node, seen from the node

  lemma ConnectedOk(v: View, n: Node)
    requires Sound(v.p) && NodeOk(v, n) && MayProceed(v.p, n) && n.link.None?
    requires forall cert :: cert in v.registry.issued ==> cert < v.supply
    ensures NodeOk(v.(supply := v.supply + 1), Connected(n, v.supply))
  {
  }

  lemma HelloStartedOk(v: View, n: Node, heard: set<Cert>)
    requires Sound(v.p) && NodeOk(v, n) && MayStart(v.p, n)
    requires n.link.Some? && n.link.value.phase.Connecting?
    ensures NodeOk(v.(heard := heard), HelloStarted(n))
  {
  }

  predicate MayReceive(p: Params, now: Millis, n: Node) {
    && n.link.Some? && n.inbox != [] && MayProceed(p, n)
    && (|Received(p, now, n).writes| > |n.writes| ==> MayStart(p, n))
  }

  lemma InboxShrinks(v: View, n: Node)
    requires InboxOk(v, n) && n.inbox != []
    ensures InboxOk(v, n.(inbox := n.inbox[1..]))
    ensures forall m :: m in n.inbox[1..] ==> m in n.inbox
    ensures n.inbox[0].Rotated? ==> forall m :: m in n.inbox[1..] && m.Rotated? ==> n.inbox[0].cert <= m.cert
  {
    var rest := n.inbox[1..];
    forall i, j | 0 <= i < j < |rest| && rest[i].Rotated? && rest[j].Rotated?
      ensures rest[i].cert <= rest[j].cert
    {
      assert n.inbox[i + 1] == rest[i] && n.inbox[j + 1] == rest[j];
    }
    if n.inbox[0].Rotated? {
      forall m | m in rest && m.Rotated?
        ensures n.inbox[0].cert <= m.cert
      {
        var j :| 0 <= j < |rest| && rest[j] == m;
        assert n.inbox[j + 1] == m;
      }
    }
  }

  lemma ConsumedOk(v: View, n: Node)
    requires NodeOk(v, n) && n.link.Some? && n.inbox != []
    ensures NodeOk(v, n.(inbox := n.inbox[1..]))
  {
    InboxShrinks(v, n);
  }

  /** The hello of a link was answered: it promotes, drops or opens. */
  lemma AnswerTakenOk(v: View, rest: Node)
    requires Sound(v.p) && NodeOk(v, rest) && rest.link.Some? && rest.link.value.phase.HelloSent?
    requires v.registry.active == rest.link.value.cert && v.threats == {}
    requires MayReceive(v.p, v.now, rest.(inbox := [HelloOk] + rest.inbox))
    ensures NodeOk(v, Received(v.p, v.now, rest.(inbox := [HelloOk] + rest.inbox)))
  {
    var n := rest.(inbox := [HelloOk] + rest.inbox);
    assert n.inbox[1..] == rest.inbox;
  }

  lemma HelloAnsweredOk(v: View, n: Node)
    requires Sound(v.p) && NodeOk(v, n) && MayReceive(v.p, v.now, n) && n.inbox[0].HelloOk?
    ensures NodeOk(v, Received(v.p, v.now, n))
  {
    var rest := n.(inbox := n.inbox[1..]);
    ConsumedOk(v, n);
    if n.link.value.phase.HelloSent? {
      assert HelloOk in n.inbox && n == rest.(inbox := [HelloOk] + rest.inbox);
      AnswerTakenOk(v, rest);
    } else {
      assert Received(v.p, v.now, n) == rest;
    }
  }

  lemma RotatedOk(v: View, n: Node)
    requires Sound(v.p) && NodeOk(v, n) && MayReceive(v.p, v.now, n) && n.inbox[0].Rotated? && v.heard <= v.threats
    ensures NodeOk(v, Received(v.p, v.now, n))
  {
    InboxShrinks(v, n);
  }

  lemma RefusedOk(v: View, n: Node)
    requires Sound(v.p) && NodeOk(v, n) && MayReceive(v.p, v.now, n) && n.inbox[0].Refused?
    ensures NodeOk(v, Received(v.p, v.now, n))
  {
    var rest, after := n.(inbox := n.inbox[1..]), Received(v.p, v.now, n);
    ConsumedOk(v, n);
    assert after == rest || after == rest.(link := Some(rest.link.value.(rotating := None)));
  }

  lemma RotationStartedOk(v: View, n: Node, csr: Csr, heard: set<Cert>)
    requires Sound(v.p) && NodeOk(v, n) && MayStart(v.p, n) && MayRotate(n)
    ensures NodeOk(v.(supply := v.supply + 1, heard := heard), RotationStarted(n, csr))
  {
  }

  lemma DrainedOk(v: View, n: Node)
    requires Sound(v.p) && NodeOk(v, n) && MayStart(v.p, n) && n.link.Some?
    ensures NodeOk(v, n.(writes := n.writes + [Keep]))
  {
  }

  lemma ClosedOk(v: View, n: Node)
    requires Sound(v.p) && NodeOk(v, n) && n.link.Some?
    ensures NodeOk(v, LinkClosed(n))
  {
  }

  lemma RestartedOk(v: View, n: Node)
    requires Sound(v.p) && NodeOk(v, n) && v.threats !! v.registry.issued
    ensures NodeOk(v, Restarted(n))
  {
  }

  predicate MayEnd(p: Params, n: Node, outcome: WriteOutcome) {
    n.writes != [] && (outcome.Written? || p.faultyWrites)
  }

  /** A promotion that failed: the link it was made for is closed. */
  lemma NotPromotedOk(v: View, n: Node, outcome: WriteOutcome)
    requires Sound(v.p) && NodeOk(v, n) && MayEnd(v.p, n, outcome) && n.writes[0].Promote? && !outcome.Written?
    requires v.registry.active in v.registry.issued
    ensures NodeOk(v, WriteEnded(v.now, n, outcome))
  {
  }

  lemma PromotedOk(v: View, n: Node, outcome: WriteOutcome)
    requires Sound(v.p) && NodeOk(v, n) && MayEnd(v.p, n, outcome) && n.writes[0].Promote? && outcome.Written?
    requires v.registry.active in v.registry.issued
    ensures NodeOk(v, WriteEnded(v.now, n, outcome))
  {
  }

  lemma DroppedOk(v: View, n: Node, outcome: WriteOutcome)
    requires Sound(v.p) && NodeOk(v, n) && MayEnd(v.p, n, outcome) && n.writes[0].Drop?
    ensures NodeOk(v, WriteEnded(v.now, n, outcome))
  {
  }

  lemma AdoptedOk(v: View, n: Node, outcome: WriteOutcome)
    requires Sound(v.p) && NodeOk(v, n) && MayEnd(v.p, n, outcome) && n.writes[0].Adopt?
    requires v.stage.Some? ==> v.stage.value.stagedAt <= v.now
    ensures NodeOk(v, WriteEnded(v.now, n, outcome))
  {
  }

  lemma KeptOk(v: View, n: Node, outcome: WriteOutcome)
    requires Sound(v.p) && NodeOk(v, n) && MayEnd(v.p, n, outcome) && n.writes[0].Keep?
    ensures NodeOk(v, WriteEnded(v.now, n, outcome))
  {
  }

  /** The same link goes on, or none does; a link that is not silent stays so. */
  predicate SameLink(n: Node, n': Node) {
    n'.link.Some? ==>
      && n.link.Some? && n'.link.value.id == n.link.value.id && n'.link.value.cert == n.link.value.cert
      && (n'.link.value.phase.Connecting? <==> n.link.value.phase.Connecting?)
  }

  lemma WriteKeepsLink(v: View, n: Node, outcome: WriteOutcome)
    requires NodeOk(v, n) && MayEnd(v.p, n, outcome)
    ensures SameLink(n, WriteEnded(v.now, n, outcome))
  {
  }

  lemma ReceiveKeepsLink(v: View, n: Node)
    requires NodeOk(v, n) && MayReceive(v.p, v.now, n)
    ensures SameLink(n, Received(v.p, v.now, n))
  {
  }

  lemma WrittenOk(v: View, n: Node, outcome: WriteOutcome)
    requires Sound(v.p) && NodeOk(v, n) && MayEnd(v.p, n, outcome)
    requires v.registry.active in v.registry.issued && (v.stage.Some? ==> v.stage.value.stagedAt <= v.now)
    ensures NodeOk(v, WriteEnded(v.now, n, outcome))
  {
    match n.writes[0]
    case Promote(_) =>
      if outcome.Written? {
        PromotedOk(v, n, outcome);
      } else {
        NotPromotedOk(v, n, outcome);
      }
    case Drop(_) => DroppedOk(v, n, outcome);
    case Adopt(_) => AdoptedOk(v, n, outcome);
    case Keep => KeptOk(v, n, outcome);
  }

  // ---------------------------------------------------------------- steps of the controller, seen from the node

  lemma HelloSentBackOk(v: View, n: Node, id: LinkId)
    requires Sound(v.p) && NodeOk(v, n)
    requires CurrentLink(n) == Some(id) ==>
      v.threats == {} && n.link.value.cert == v.registry.active && !n.link.value.phase.Connecting?
    ensures NodeOk(v, Sent(n, id, HelloOk))
  {
  }

  lemma RefusedSentOk(v: View, n: Node, id: LinkId, csr: Csr)
    requires Sound(v.p) && NodeOk(v, n)
    requires CurrentLink(n) == Some(id) ==> !n.link.value.phase.Connecting?
    ensures NodeOk(v, Sent(n, id, Refused(csr)))
  {
  }

  /** A certificate that is the newest staged one may be sent to a link that has been accepted. */
  lemma RotatedSentOk(v: View, n: Node, id: LinkId, csr: Csr)
    requires Sound(v.p) && NodeOk(v, n) && v.stage.Some? && v.stage.value.cert < v.supply
    requires CurrentLink(n) == Some(id) ==>
      !n.link.value.phase.Connecting? && v.threats == {} && v.stage.value.cert != v.registry.active
    ensures NodeOk(v, Sent(n, id, Rotated(csr, v.stage.value.cert)))
  {
    if CurrentLink(n) == Some(id) {
      var cert, n' := v.stage.value.cert, Sent(n, id, Rotated(csr, v.stage.value.cert));
      forall m | m in n'.inbox && m.Rotated?
        ensures v.Adoptable(n.cached, m.cert) && m.cert != v.registry.active && m.cert <= cert
      {
        assert m in n.inbox || m == Rotated(csr, cert);
      }
    }
  }

  lemma StagedOk(v: View, n: Node, csr: Csr, at: Millis)
    requires Sound(v.p) && NodeOk(v, n) && forall cert :: cert in v.threats ==> cert < v.supply
    ensures NodeOk(v.(stage := Some(Stage(v.supply, csr, at)), supply := v.supply + 1), n)
  {
  }

  /** What becomes active is what the node holds as pending; nothing else is left to activate. */
  lemma ActivatedOk(v: View, n: Node, cert: Cert)
    requires Sound(v.p) && NodeOk(v, n) && cert in v.heard && v.heard <= v.threats && cert !in v.registry.issued
    ensures NodeOk(v.(registry := v.registry.(active := cert, issued := v.registry.issued + {cert}),
                      threats := {}, heard := {}), n)
  {
  }

  /** The pending certificate may become a threat again when the link that presents it is admitted on the live stage. */
  lemma PendingPresentedOk(v: View, n: Node)
    requires Sound(v.p) && NodeOk(v, n) && v.registry.active in v.registry.issued
    requires n.link.Some? && n.link.value.phase.Connecting? && n.link.value.cert !in v.registry.issued
    requires v.stage.Some? && v.stage.value.cert == n.link.value.cert && Live(v.p, v.now, v.stage.value)
    ensures NodeOk(v.(threats := v.threats + {n.link.value.cert}), n)
  {
    assert n.link.value.slot.PendingSlot? && n.cached.pending.Some? && n.cached.pending.value.cert == n.link.value.cert;
  }
}
