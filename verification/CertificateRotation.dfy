/**
 The certificate rotation protocol between one worker node, the agent controller and the
 certificate table, as a machine over atomic steps. Each step is the code between two `await`s.
 Anything may be lost or delayed: links, replies, the controller process, the node process.
 The node keeps its identity in a durable store; the controller keeps everything in memory.
 */
module CertificateRotation {
  import opened Prelude

  type Cert = nat
  type Csr = nat
  type LinkId = nat

  /**
   How the node orders its work around a state write. `Prompt`: it does nothing else until the write has ended.
   `OneAtATime`: it may connect, receive and close meanwhile, but starts nothing that ends in a second write.
   `Overlapping`: writes queue up behind one another, as the promise chain allows.
   */
  datatype WriteDiscipline = Prompt | OneAtATime | Overlapping

  /** What the two deployments configure and what their platforms guarantee. */
  datatype Params = Params(
    controllerTtl: Millis,      // staged identity lifetime at the controller
    nodeTtl: Millis,            // age at which the node gives a pending identity up
    cooldown: Millis,           // minimum distance between two issued rotations
    atomicActivation: bool,     // "the candidate is still open" and the table write are one step
    atomicAcceptance: bool,     // a hello on the active certificate: the table read and the acceptance are one step
    writes: WriteDiscipline,
    faultyWrites: bool)         // a state write may report a failure, with or without committing

  /** The node's rows of the certificate table: the unrevoked certificate and every serial ever inserted. */
  datatype Registry = Registry(active: Cert, issued: set<Cert>, revoked: bool)

  datatype Stage = Stage(cert: Cert, csr: Csr, stagedAt: Millis)

  datatype ToController = Hello | Rotate(csr: Csr)
  datatype ToNode = HelloOk | Rotated(csr: Csr, cert: Cert) | Refused(csr: Csr)

  /**
   `Accepted` is the entry of the connection table; all other stages are candidates. A staged candidate is checked, its
   certificate written (`Committed`), the other connections closed (`Replaced`) and the table read again (`Confirming`).
   A candidate on the active certificate that waits between the table read and its acceptance is `Verified`.
   */
  datatype Progress =
    | AwaitingHello | Checked | Landing | Committed | Replaced | Confirming(active: bool)
    | Verified(active: bool) | Accepted

  datatype Peer = Peer(
    cert: Cert,
    staged: Option<Stage>,       // authenticated by the staged identity only
    activated: Option<Stage>,    // staged identity that is already the active certificate
    progress: Progress,
    inbox: seq<ToController>)

  datatype Signing = Signing(link: LinkId, csr: Csr, startedAt: Millis)

  /** An upgrade request between its suspension points: the staged identity it saw, and what the table said. */
  datatype Upgrade = Upgrade(cert: Cert, staged: Option<Stage>, active: Option<bool>)

  datatype Controller = Controller(
    upgrades: map<LinkId, Upgrade>,
    peers: map<LinkId, Peer>,
    stage: Option<Stage>,
    lastRotation: Option<Millis>,
    signing: set<Signing>,
    landing: set<Cert>)          // activations whose open check is over and whose write is outstanding

  datatype Pending = Pending(cert: Cert, stagedAt: Millis)
  datatype Held = Held(active: Cert, pending: Option<Pending>)
  datatype Slot = ActiveSlot | PendingSlot
  datatype Phase = Connecting | HelloSent(loaded: Option<Millis>) | Replied | Opened
  datatype Link = Link(id: LinkId, slot: Slot, cert: Cert, phase: Phase, rotating: Option<Csr>)

  /** Queued state mutations. `Keep` is the drain command, which rewrites the document unchanged here. */
  datatype Write = Promote(link: LinkId) | Drop(link: LinkId) | Adopt(cert: Cert) | Keep

  datatype Node = Node(
    stored: Held,                // durable
    cached: Held,                // what the process last loaded or wrote successfully
    preferActive: bool,
    link: Option<Link>,
    writes: seq<Write>,
    inbox: seq<ToNode>,          // delivered in order on the current link only
    request: Option<Csr>)        // durable rotation request

  datatype World = World(now: Millis, registry: Registry, controller: Controller, node: Node, supply: nat)

  // ---------------------------------------------------------------- the certificate table

  /** One transaction: revoke what is active, insert the new serial. Refused for a revoked node and a known serial. */
  function Activated(r: Registry, c: Cert): Option<Registry> {
    if r.revoked || c in r.issued then None
    else Some(r.(active := c, issued := r.issued + {c}))
  }

  predicate IsActive(r: Registry, c: Cert) {
    !r.revoked && r.active == c
  }

  // ---------------------------------------------------------------- the controller

  predicate Live(p: Params, now: Millis, st: Stage) {
    now - st.stagedAt < p.controllerTtl
  }

  function LiveStage(p: Params, now: Millis, stage: Option<Stage>): Option<Stage> {
    if stage.Some? && Live(p, now, stage.value) then stage else None
  }

  function Closed(c: Controller, id: LinkId): Controller {
    c.(peers := c.peers - {id})
  }

  /** The upgrade request of link `id`, which presented `cert`, sees the staged identity and asks the table. */
  function Authenticate(p: Params, now: Millis, c: Controller, id: LinkId, cert: Cert): Controller {
    var stage := LiveStage(p, now, c.stage);
    c.(stage := stage, upgrades := c.upgrades[id := Upgrade(cert, stage, None)])
  }

  function LookUp(r: Registry, c: Controller, id: LinkId): Controller
    requires id in c.upgrades
  {
    c.(upgrades := c.upgrades[id := c.upgrades[id].(active := Some(IsActive(r, c.upgrades[id].cert)))])
  }

  /** The candidate an answered upgrade request becomes, if it is not rejected. */
  function Upgraded(stage: Option<Stage>, u: Upgrade): Option<Peer>
    requires u.active.Some?
  {
    var matching := if u.staged.Some? && u.staged.value.cert == u.cert then u.staged else None;
    if u.active.value then Some(Peer(u.cert, None, matching, AwaitingHello, []))
    else if matching.Some? && stage == matching then Some(Peer(u.cert, matching, None, AwaitingHello, []))
    else None
  }

  /** A rejected upgrade leaves no peer. */
  function Admit(c: Controller, id: LinkId): Controller
    requires id in c.upgrades && c.upgrades[id].active.Some?
  {
    var peer := Upgraded(c.stage, c.upgrades[id]);
    c.(upgrades := c.upgrades - {id}, peers := if peer.Some? then c.peers[id := peer.value] else c.peers)
  }

  /** The hello of a staged peer: the staged identity must be the current one and within its lifetime. */
  function CheckStaged(p: Params, now: Millis, c: Controller, id: LinkId): Controller
    requires id in c.peers && c.peers[id].staged.Some? && c.peers[id].inbox != []
  {
    var peer := c.peers[id];
    if peer.inbox[0] == Hello && c.stage == peer.staged && Live(p, now, peer.staged.value)
    then c.(peers := c.peers[id := peer.(progress := Checked, inbox := peer.inbox[1..])])
    else Closed(c, id)
  }

  /** After the table write everything else of this node is disconnected. */
  function ReplaceOthers(c: Controller, id: LinkId): Controller
    requires id in c.peers
  {
    c.(peers := map[id := c.peers[id].(progress := Replaced)])
  }

  function Confirm(r: Registry, c: Controller, id: LinkId): Controller
    requires id in c.peers
  {
    c.(peers := c.peers[id := c.peers[id].(progress := Confirming(IsActive(r, c.peers[id].cert)))])
  }

  /** The peer is accepted unless the table said that its certificate is not the active one. */
  function FinishActivation(c: Controller, id: LinkId): Controller
    requires id in c.peers && c.peers[id].progress.Confirming?
  {
    var peer := c.peers[id];
    if peer.progress.active then c.(peers := c.peers[id := peer.(staged := None, progress := Accepted)], stage := None)
    else Closed(c, id)
  }

  /** The first message of a peer that presented the active certificate; a hello asks the table once more. */
  function ReadHello(r: Registry, c: Controller, id: LinkId): Controller
    requires id in c.peers && c.peers[id].inbox != []
  {
    var peer := c.peers[id];
    if peer.inbox[0] == Hello
    then c.(peers := c.peers[id := peer.(progress := Verified(IsActive(r, peer.cert)), inbox := peer.inbox[1..])])
    else Closed(c, id)
  }

  /** What follows on the answer of the table: the peer becomes the only connection of this node, or is closed. */
  function AcceptVerified(p: Params, now: Millis, c: Controller, id: LinkId): Controller
    requires id in c.peers && c.peers[id].progress.Verified?
  {
    var peer := c.peers[id];
    if peer.progress.active then
      var settled := peer.activated.Some? && c.stage == peer.activated && Live(p, now, peer.activated.value);
      c.(peers := map[id := peer.(activated := None, progress := Accepted)], stage := if settled then None else c.stage)
    else Closed(c, id)
  }

  /** Read and acceptance in one step. */
  function AcceptActive(p: Params, r: Registry, now: Millis, c: Controller, id: LinkId): Controller
    requires id in c.peers && c.peers[id].inbox != []
  {
    var read := ReadHello(r, c, id);
    if id in read.peers then AcceptVerified(p, now, read, id) else read
  }

  datatype RotationReply = Reissued(cert: Cert) | OtherPending | Dropped | SigningStarted

  function RotationReplyTo(p: Params, r: Registry, now: Millis, c: Controller, csr: Csr): RotationReply {
    var stage := LiveStage(p, now, c.stage);
    if stage.Some? then (if stage.value.csr == csr then Reissued(stage.value.cert) else OtherPending)
    else if c.lastRotation.Some? && now - c.lastRotation.value < p.cooldown then Dropped
    else if r.revoked then Dropped
    else SigningStarted
  }

  /** A rotation request read from an accepted peer. */
  function ReadRotation(p: Params, r: Registry, now: Millis, c: Controller, id: LinkId): Controller
    requires id in c.peers && c.peers[id].inbox != [] && c.peers[id].inbox[0].Rotate?
  {
    var peer := c.peers[id];
    var csr := peer.inbox[0].csr;
    var c' := c.(stage := LiveStage(p, now, c.stage),
                 peers := c.peers[id := peer.(inbox := peer.inbox[1..])]);
    match RotationReplyTo(p, r, now, c, csr)
    case Dropped => Closed(c', id)
    case SigningStarted => c'.(signing := c'.signing + {Signing(id, csr, now)})
    case _ => c'
  }

  function StageSigned(c: Controller, s: Signing, cert: Cert): Controller {
    c.(signing := c.signing - {s},
       stage := Some(Stage(cert, s.csr, s.startedAt)),
       lastRotation := Some(s.startedAt))
  }

  const IdleController := Controller(map[], map[], None, None, {}, {})

  // ---------------------------------------------------------------- the node

  /** Which identity the next connection presents. */
  function ChosenSlot(held: Held, preferActive: bool): Slot {
    if held.pending.Some? && !preferActive then PendingSlot else ActiveSlot
  }

  function CertOf(held: Held, slot: Slot): Cert
    requires slot.PendingSlot? ==> held.pending.Some?
  {
    if slot.PendingSlot? then held.pending.value.cert else held.active
  }

  function PreferenceAfterClose(link: Link, preferActive: bool): bool {
    if link.phase.Opened? then preferActive else link.slot.PendingSlot?
  }

  function Connected(n: Node, id: LinkId): Node {
    var slot := ChosenSlot(n.cached, n.preferActive);
    n.(link := Some(Link(id, slot, CertOf(n.cached, slot), Connecting, None)), inbox := [])
  }

  function LinkClosed(n: Node): Node
    requires n.link.Some?
  {
    n.(link := None, inbox := [], preferActive := PreferenceAfterClose(n.link.value, n.preferActive))
  }

  function HelloStarted(n: Node): Node
    requires n.link.Some?
  {
    var at := if n.cached.pending.Some? then Some(n.cached.pending.value.stagedAt) else None;
    n.(link := Some(n.link.value.(phase := HelloSent(at))))
  }

  /** The head of the inbox of the current link. */
  function Received(p: Params, now: Millis, n: Node): Node
    requires n.link.Some? && n.inbox != []
  {
    var link := n.link.value;
    var n' := n.(inbox := n.inbox[1..]);
    match n.inbox[0]
    case HelloOk =>
      if !link.phase.HelloSent? then n'
      else if link.slot.PendingSlot? then
        n'.(link := Some(link.(phase := Replied)), writes := n.writes + [Promote(link.id)])
      else if link.phase.loaded.Some? && now - link.phase.loaded.value >= p.nodeTtl then
        n'.(link := Some(link.(phase := Replied)), writes := n.writes + [Drop(link.id)])
      else
        n'.(link := Some(link.(phase := Opened)),
            preferActive := if link.phase.loaded.Some? then false else n.preferActive)
    case Rotated(csr, cert) =>
      if link.rotating == Some(csr)
      then n'.(link := Some(link.(rotating := None)), writes := n.writes + [Adopt(cert)])
      else n'
    case Refused(csr) =>
      if link.rotating == Some(csr) then n'.(link := Some(link.(rotating := None))) else n'
  }

  predicate MayRotate(n: Node) {
    && n.link.Some?
    && (n.link.value.phase.Replied? || n.link.value.phase.Opened?)
    && n.link.value.rotating.None?
    && forall w :: w in n.writes ==> !w.Adopt?
  }

  /** The durable request is reused when one is left over from an earlier attempt. */
  function RotationStarted(n: Node, csr: Csr): Node
    requires n.link.Some?
  {
    n.(request := Some(csr), link := Some(n.link.value.(rotating := Some(csr))))
  }

  /** The document a mutation writes; `None` when the mutation itself throws. */
  function Transformed(w: Write, held: Held, now: Millis): Option<Held> {
    match w
    case Promote(_) => if held.pending.Some? then Some(Held(held.pending.value.cert, None)) else None
    case Drop(_) => Some(held.(pending := None))
    case Adopt(cert) => Some(held.(pending := Some(Pending(cert, now))))
    case Keep => Some(held)
  }

  datatype WriteOutcome = Written(keepRequest: bool) | NotWritten | WrittenButReportedFailed

  predicate OwnsLink(n: Node, w: Write) {
    (w.Promote? || w.Drop?) && n.link.Some? && n.link.value.id == w.link
  }

  /** The first queued mutation ends. A failed promotion or drop closes the link it was made for. */
  function WriteEnded(now: Millis, n: Node, outcome: WriteOutcome): Node
    requires n.writes != []
  {
    var w := n.writes[0];
    var n' := n.(writes := n.writes[1..]);
    var next := Transformed(w, n.cached, now);
    if next.None? || outcome.NotWritten? then
      if OwnsLink(n, w) then LinkClosed(n') else n'
    else if outcome.WrittenButReportedFailed? then
      var m := n'.(stored := next.value);
      if OwnsLink(n, w) then LinkClosed(m) else m
    else
      var m := n'.(stored := next.value, cached := next.value);
      match w
      case Promote(_) =>
        m.(preferActive := false,
           request := if outcome.keepRequest then m.request else None,
           link := if OwnsLink(n, w) then Some(m.link.value.(phase := Opened, slot := ActiveSlot)) else m.link)
      case Drop(_) =>
        m.(link := if OwnsLink(n, w) then Some(m.link.value.(phase := Opened)) else m.link)
      case Adopt(_) => m.(request := if outcome.keepRequest then m.request else None)
      case Keep => m
  }

  /** The process dies and starts again from the durable document. */
  function Restarted(n: Node): Node {
    n.(cached := n.stored, preferActive := false, link := None, writes := [], inbox := [])
  }

  // ---------------------------------------------------------------- the machine

  datatype Step =
    | Tick(elapsed: Millis)
    | RevokeNode
    | NodeConnect
    | NodeHello
    | NodeReceive
    | NodeRotate
    | NodeDrain
    | NodeWrite(outcome: WriteOutcome)
    | NodeClose
    | NodeCrash
    | ControllerAuthenticate
    | ControllerLookUp(id: LinkId)
    | ControllerAdmit(id: LinkId)
    | ControllerCheck(id: LinkId)
    | ControllerActivate(id: LinkId)
    | ControllerBeginActivation(id: LinkId)
    | ControllerLand(cert: Cert)
    | ControllerReplace(id: LinkId)
    | ControllerConfirm(id: LinkId)
    | ControllerFinish(id: LinkId)
    | ControllerAccept(id: LinkId)
    | ControllerReadHello(id: LinkId)
    | ControllerAcceptVerified(id: LinkId)
    | ControllerReadRotation(id: LinkId)
    | ControllerStage(signing: Signing)
    | ControllerExpire
    | ControllerClose(id: LinkId)
    | ControllerRestart

  /** Steps that do not themselves lead to a state write. */
  predicate MayProceed(p: Params, n: Node) {
    p.writes.Prompt? ==> n.writes == []
  }

  /** Steps that do: a hello decides on the document it loaded, a rotation is adopted, a drain rewrites. */
  predicate MayStart(p: Params, n: Node) {
    !p.writes.Overlapping? ==> n.writes == []
  }

  function Sent(n: Node, id: LinkId, m: ToNode): Node {
    if n.link.Some? && n.link.value.id == id then n.(inbox := n.inbox + [m]) else n
  }

  function Answered(n: Node, id: LinkId, csr: Csr, reply: RotationReply): Node {
    match reply
    case Reissued(cert) => Sent(n, id, Rotated(csr, cert))
    case OtherPending => Sent(n, id, Refused(csr))
    case _ => n
  }

  /** A signed certificate is sent while its link is still connected. */
  function Told(c: Controller, n: Node, s: Signing, cert: Cert): Node {
    if s.link in c.peers then Sent(n, s.link, Rotated(s.csr, cert)) else n
  }

  function Delivered(c: Controller, id: LinkId, m: ToController): Controller {
    if id in c.peers then c.(peers := c.peers[id := c.peers[id].(inbox := c.peers[id].inbox + [m])]) else c
  }

  predicate Candidate(c: Controller, id: LinkId, progress: Progress) {
    id in c.peers && c.peers[id].progress == progress
  }

  predicate Enabled(p: Params, w: World, s: Step) {
    var n, c := w.node, w.controller;
    match s
    case Tick(_) => true
    case RevokeNode => true
    case NodeConnect => MayProceed(p, n) && n.link.None?
    case NodeHello => MayStart(p, n) && n.link.Some? && n.link.value.phase.Connecting? && n.link.value.id in c.peers
    case NodeReceive =>
      && n.link.Some? && n.inbox != [] && MayProceed(p, n)
      && (|Received(p, w.now, n).writes| > |n.writes| ==> MayStart(p, n))
    case NodeRotate => MayStart(p, n) && MayRotate(n)
    case NodeDrain => MayStart(p, n) && n.link.Some?
    case NodeWrite(outcome) => n.writes != [] && (outcome.Written? || p.faultyWrites)
    case NodeClose => n.link.Some?
    case NodeCrash => true
    case ControllerAuthenticate =>
      n.link.Some? && n.link.value.phase.Connecting? && n.link.value.id !in c.peers && n.link.value.id !in c.upgrades
    case ControllerLookUp(id) => id in c.upgrades && c.upgrades[id].active.None?
    case ControllerAdmit(id) => id in c.upgrades && c.upgrades[id].active.Some?
    case ControllerCheck(id) => Candidate(c, id, AwaitingHello) && c.peers[id].staged.Some? && c.peers[id].inbox != []
    case ControllerActivate(id) => Candidate(c, id, Checked)
    case ControllerBeginActivation(id) => !p.atomicActivation && Candidate(c, id, Checked)
    case ControllerLand(cert) => cert in c.landing
    case ControllerReplace(id) => Candidate(c, id, Committed)
    case ControllerConfirm(id) => Candidate(c, id, Replaced)
    case ControllerFinish(id) => id in c.peers && c.peers[id].progress.Confirming?
    case ControllerAccept(id) => Candidate(c, id, AwaitingHello) && c.peers[id].staged.None? && c.peers[id].inbox != []
    case ControllerReadHello(id) =>
      !p.atomicAcceptance && Candidate(c, id, AwaitingHello) && c.peers[id].staged.None? && c.peers[id].inbox != []
    case ControllerAcceptVerified(id) => id in c.peers && c.peers[id].progress.Verified?
    case ControllerReadRotation(id) => Candidate(c, id, Accepted) && c.peers[id].inbox != []
      && c.peers[id].inbox[0].Rotate?
    case ControllerStage(signing) => signing in c.signing
    case ControllerExpire => c.stage.Some? && !Live(p, w.now, c.stage.value)
    case ControllerClose(id) => id in c.peers
    case ControllerRestart => true
  }

  /** The peers whose certificate `cert` was waiting for the table write that just ended. */
  function Landed(peers: map<LinkId, Peer>, cert: Cert): map<LinkId, Peer> {
    map id | id in peers ::
      if peers[id].progress == Landing && peers[id].cert == cert then peers[id].(progress := Committed) else peers[id]
  }

  function Next(p: Params, w: World, s: Step): World
    requires Enabled(p, w, s)
  {
    var n, c, r, now := w.node, w.controller, w.registry, w.now;
    match s
    case Tick(elapsed) => w.(now := now + elapsed)
    case RevokeNode => w.(registry := r.(revoked := true))
    case NodeConnect => w.(node := Connected(n, w.supply), supply := w.supply + 1)
    case NodeHello => w.(node := HelloStarted(n), controller := Delivered(c, n.link.value.id, Hello))
    case NodeReceive => w.(node := Received(p, now, n))
    case NodeRotate =>
      var csr := if n.request.Some? then n.request.value else w.supply;
      w.(node := RotationStarted(n, csr), controller := Delivered(c, n.link.value.id, Rotate(csr)),
        supply := w.supply + 1)
    case NodeDrain => w.(node := n.(writes := n.writes + [Keep]))
    case NodeWrite(outcome) => w.(node := WriteEnded(now, n, outcome))
    case NodeClose => w.(node := LinkClosed(n))
    case NodeCrash => w.(node := Restarted(n))
    case ControllerAuthenticate =>
      w.(controller := Authenticate(p, now, c, n.link.value.id, n.link.value.cert))
    case ControllerLookUp(id) => w.(controller := LookUp(r, c, id))
    case ControllerAdmit(id) => w.(controller := Admit(c, id))
    case ControllerCheck(id) => w.(controller := CheckStaged(p, now, c, id))
    case ControllerActivate(id) =>
      var r' := Activated(r, c.peers[id].cert);
      if r'.None? then w.(controller := Closed(c, id))
      else w.(registry := r'.value, controller := c.(peers := c.peers[id := c.peers[id].(progress := Committed)]))
    case ControllerBeginActivation(id) =>
      w.(controller := c.(peers := c.peers[id := c.peers[id].(progress := Landing)],
        landing := c.landing + {c.peers[id].cert}))
    case ControllerLand(cert) =>
      var r' := Activated(r, cert);
      w.(registry := if r'.Some? then r'.value else r,
         controller := c.(peers := Landed(c.peers, cert), landing := c.landing - {cert}))
    case ControllerReplace(id) => w.(controller := ReplaceOthers(c, id))
    case ControllerConfirm(id) => w.(controller := Confirm(r, c, id))
    case ControllerFinish(id) =>
      w.(controller := FinishActivation(c, id), node := if c.peers[id].progress.active then Sent(n, id, HelloOk) else n)
    case ControllerAccept(id) =>
      var accepted := c.peers[id].inbox[0] == Hello && IsActive(r, c.peers[id].cert);
      w.(controller := AcceptActive(p, r, now, c, id), node := if accepted then Sent(n, id, HelloOk) else n)
    case ControllerReadHello(id) => w.(controller := ReadHello(r, c, id))
    case ControllerAcceptVerified(id) =>
      w.(controller := AcceptVerified(p, now, c, id), node := if c.peers[id].progress.active then Sent(n, id, HelloOk)
        else n)
    case ControllerReadRotation(id) =>
      var csr := c.peers[id].inbox[0].csr;
      var reply := RotationReplyTo(p, r, now, c, csr);
      w.(controller := ReadRotation(p, r, now, c, id),
         node := Answered(n, id, csr, reply))
    case ControllerStage(signing) =>
      w.(controller := StageSigned(c, signing, w.supply),
         node := Told(c, n, signing, w.supply),
         supply := w.supply + 1)
    case ControllerExpire => w.(controller := c.(stage := None))
    case ControllerClose(id) => w.(controller := Closed(c, id))
    case ControllerRestart => w.(controller := IdleController)
  }

  /** A node that has just stored the identity it enrolled with. */
  const Enrolled := World(0, Registry(0, {0}, false), IdleController,
                          Node(Held(0, None), Held(0, None), false, None, [], [], None), 1)

  predicate Runs(p: Params, w: World, steps: seq<Step>)
    decreases |steps|
  {
    steps == [] || (Enabled(p, w, steps[0]) && Runs(p, Next(p, w, steps[0]), steps[1..]))
  }

  function After(p: Params, w: World, steps: seq<Step>): World
    requires Runs(p, w, steps)
    decreases |steps|
  {
    if steps == [] then w else After(p, Next(p, w, steps[0]), steps[1..])
  }

  ghost predicate Reachable(p: Params, w: World) {
    exists steps :: Runs(p, Enrolled, steps) && After(p, Enrolled, steps) == w
  }

  predicate Holds(held: Held, c: Cert) {
    held.active == c || (held.pending.Some? && held.pending.value.cert == c)
  }

  /** The node can still prove itself: it durably holds the one unrevoked certificate. */
  predicate NotLockedOut(w: World) {
    w.registry.revoked || Holds(w.node.stored, w.registry.active)
  }

  ghost predicate NeverLocksOut(p: Params) {
    forall w :: Reachable(p, w) ==> NotLockedOut(w)
  }
}
