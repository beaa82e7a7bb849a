/** The TLS rotation protocol between the broker application and the controller application.

    Every charm hook is one atomic step over two applications, their units' databags, and each
    unit's disk and running process.  Databag writes are visible to the steps that follow. */
module Rotation {
  import opened Truststore

  datatype Role = BrokerApp | ControllerApp
  {
    function Other(): Role { if BrokerApp? then ControllerApp else BrokerApp }
  }

  /** What a unit keeps in its own databag of the peer relation.  The bundle starts with the unit's
      certificate, followed by its CA and the rest of the chain. */
  datatype UnitBag = UnitBag(bundle: seq<Certificate>, rotate: bool, published: set<Certificate>)

  /** What an application shows to its own units and to the application across the relation. */
  datatype AppBag = AppBag(
    units: seq<UnitBag>, leader: nat, ca: seq<Certificate>, trust: set<Certificate>, rotating: bool)

  /** A unit's disk, the stores its process loaded at the last restart, and its wish to restart. */
  datatype Local = Local(
    disk: Disk, loadedTrust: Trust, loadedKey: seq<Certificate>, lastRestart: nat, pending: bool)

  /** The certificates of a bundle that have to be trusted by others. */
  function Authorities(bundle: seq<Certificate>): set<Certificate> {
    set c | c in bundle && !c.Leaf?
  }

  function WithUnit(us: AppBag, me: nat, b: UnitBag): AppBag
    requires me < |us.units|
  {
    us.(units := us.units[me := b])
  }

  /** `trusted_by_our_app`: what every unit of the application has published. */
  function TrustedByAll(units: seq<UnitBag>): set<Certificate>
    requires units != []
  {
    set c | c in units[0].published && forall u | u in units :: c in u.published
  }

  predicate AnyRotating(units: seq<UnitBag>) {
    exists u | u in units :: u.rotate
  }

  predicate WellFormed(us: AppBag) { us.leader < |us.units| }

  /** `update_peer_truststore_state`. */
  function PublishTrust(l: Local, us: AppBag, me: nat, force: bool): (r: AppBag)
    requires WellFormed(us) && me < |us.units|
    ensures WellFormed(r) && |r.units| == |us.units|
  {
    if l.disk.trust == map[] || (!force && l.lastRestart <= l.disk.modified) then us
    else
      var told := WithUnit(us, me, us.units[me].(published := l.disk.trust.Values));
      if me == us.leader then told.(trust := TrustedByAll(told.units)) else told
  }

  /** `peer_cluster_app_trusts_new_bundle`, with the remote application's databag. */
  predicate GateOpen(b: UnitBag, them: AppBag) {
    Authorities(b.bundle) <= them.trust
  }

  /** `both_sides_rotating` on the side that is allowed to go first. */
  predicate Exempt(role: Role, us: AppBag, them: AppBag) {
    role.BrokerApp? && them.rotating && AnyRotating(us.units)
  }

  /** `both_apps_trust_new_bundle`. */
  predicate BothTrust(us: AppBag, them: AppBag, me: nat)
    requires me < |us.units|
  {
    Authorities(us.units[me].bundle) + Authorities(them.ca) <= TrustedByAll(us.units) * them.trust
  }

  /** A rotating unit stays at the gate unless the remote side trusts its bundle or it may go first. */
  predicate HeldBack(role: Role, us: AppBag, them: AppBag, me: nat)
    requires me < |us.units|
  {
    us.units[me].rotate && !GateOpen(us.units[me], them) && !Exempt(role, us, them)
  }

  /** A `config_changed` pass: publish if the process is newer than the truststore, adopt the remote
      bundle, then either wait at the gate or ask for a restart and clear the rotation flag.
      First what the pass writes into the databags. */
  function PassBag(role: Role, l: Local, us: AppBag, them: AppBag, me: nat): (r: AppBag)
    requires WellFormed(us) && me < |us.units|
    ensures WellFormed(r) && |r.units| == |us.units|
  {
    if them.ca == [] then us
    else
      var told := PublishTrust(l, us, me, false);
      if HeldBack(role, told, them, me) then told else PassDone(role, told, me)
  }

  function PassDone(role: Role, us: AppBag, me: nat): (r: AppBag)
    requires WellFormed(us) && me < |us.units|
    ensures WellFormed(r) && |r.units| == |us.units|
  {
    var offered := if role.BrokerApp? && me == us.leader then us.(ca := us.units[me].bundle) else us;
    var cleared := WithUnit(offered, me, us.units[me].(rotate := false));
    if me == us.leader then cleared.(rotating := AnyRotating(cleared.units)) else cleared
  }

  /** Then what the pass does on the unit itself. */
  function PassLocal(role: Role, l: Local, us: AppBag, them: AppBag, me: nat, properties: bool, now: nat): Local
    requires WellFormed(us) && me < |us.units|
  {
    if them.ca == [] then l
    else
      var disk := PeerPass(l.disk, them.ca, now);
      var updated := disk.trust.Values != l.disk.trust.Values;
      var asks := !HeldBack(role, PublishTrust(l, us, me, false), them, me)
                  && (properties || us.units[me].rotate || updated);
      l.(disk := disk, pending := l.pending || asks)
  }

  /** A signed certificate arrives: the databags first. */
  function CertificateBag(us: AppBag, me: nat, bundle: seq<Certificate>): (r: AppBag)
    requires WellFormed(us) && me < |us.units| && |bundle| >= 2 && |us.units[me].bundle| >= 2
    ensures WellFormed(r) && |r.units| == |us.units|
  {
    var was := us.units[me];
    var changed := bundle[0] != was.bundle[0] || bundle[1] != was.bundle[1];
    var b := was.(bundle := bundle, rotate := was.rotate || changed);
    var stored := WithUnit(us, me, b);
    if me == us.leader then stored.(ca := bundle, rotating := us.rotating || b.rotate) else stored
  }

  /** The previous bundle is kept under the `old-` aliases if the CA changed. */
  function CertificateDisk(was: UnitBag, them: AppBag, bundle: seq<Certificate>, now: nat): Disk
    requires |bundle| >= 2 && |was.bundle| >= 2
  {
    Install(bundle, them.ca, if bundle[1] != was.bundle[1] then was.bundle else [], now)
  }

  /** The certificates relation goes away and the unit falls back to a self-signed certificate.
      Unlike above, the application's rotation flag is not raised. */
  function BrokenBag(us: AppBag, me: nat, bundle: seq<Certificate>): (r: AppBag)
    requires WellFormed(us) && me < |us.units|
    ensures WellFormed(r) && |r.units| == |us.units|
  {
    var stored := WithUnit(us, me, us.units[me].(bundle := bundle, rotate := true));
    if me == us.leader then stored.(ca := bundle) else stored
  }

  function BrokenDisk(was: UnitBag, them: AppBag, bundle: seq<Certificate>, now: nat): Disk {
    Install(bundle, them.ca, was.bundle, now)
  }

  /** `_restart_broker`: the process loads what is on disk; trust is published only if the workload
      is found healthy afterwards, otherwise the restart stays queued. */
  function RestartLocal(l: Local, healthy: bool, now: nat): Local {
    l.(loadedTrust := l.disk.trust, loadedKey := l.disk.keystore, lastRestart := now, pending := !healthy && l.pending)
  }

  function RestartBag(l: Local, us: AppBag, me: nat, healthy: bool): (r: AppBag)
    requires WellFormed(us) && me < |us.units|
    ensures WellFormed(r) && |r.units| == |us.units|
  {
    if healthy then PublishTrust(l, us, me, true) else us
  }

  /** The guard of the clean-up in `_on_update_status`, after its own `config_changed` pass. */
  predicate CleanupDue(l: Local, us: AppBag, them: AppBag, me: nat)
    requires me < |us.units|
  {
    them.ca != [] && HasTemporary(l.disk.trust) && BothTrust(us, them, me)
  }

  function StatusLocal(role: Role, l: Local, us: AppBag, them: AppBag, me: nat, properties: bool, now: nat): Local
    requires WellFormed(us) && me < |us.units|
  {
    var passed := PassLocal(role, l, us, them, me, properties, now);
    if CleanupDue(passed, PassBag(role, l, us, them, me), them, me)
    then passed.(disk := Rebuild(passed.disk, us.units[me].bundle, them.ca, now), pending := true)
    else passed
  }

  // ---- Worlds, steps and runs ----

  datatype App = App(bag: AppBag, locals: seq<Local>)

  datatype World = World(broker: App, controller: App, clock: nat)
  {
    function Of(role: Role): App { if role.BrokerApp? then broker else controller }

    function With(role: Role, app: App): World {
      if role.BrokerApp? then this.(broker := app) else this.(controller := app)
    }
  }

  datatype Step =
    | CertificateStep(role: Role, me: nat, bundle: seq<Certificate>)
    | BrokenStep(role: Role, me: nat, bundle: seq<Certificate>)
    | ConfigStep(role: Role, me: nat, properties: bool)
    | RestartStep(role: Role, me: nat, healthy: bool)
    | StatusStep(role: Role, me: nat, properties: bool)
    | OfferStep(role: Role, me: nat)
    | ElectStep(role: Role, me: nat)
  {
    /** The step needs nothing from outside the two charms. */
    predicate Internal() { ConfigStep? || RestartStep? || StatusStep? || OfferStep? }
  }

  ghost predicate GoodBundle(bundle: seq<Certificate>) {
    |bundle| >= 2 && DuplicateFree(bundle)
  }

  ghost predicate WellFormedApp(app: App) {
    && WellFormed(app.bag) && |app.locals| == |app.bag.units|
    && forall u | u in app.bag.units :: GoodBundle(u.bundle)
  }

  ghost predicate WellFormedWorld(w: World) {
    WellFormedApp(w.broker) && WellFormedApp(w.controller)
  }

  /** A step that can happen: a delivered certificate is a new one, and restarts happen on request. */
  ghost predicate Enabled(w: World, s: Step)
    requires WellFormedWorld(w)
  {
    var app := w.Of(s.role);
    && s.me < |app.bag.units|
    && (s.CertificateStep? ==> GoodBundle(s.bundle) && s.bundle[0] != app.bag.units[s.me].bundle[0])
    && (s.BrokenStep? ==> GoodBundle(s.bundle))
    && (s.RestartStep? ==> app.locals[s.me].pending)
    && (s.OfferStep? ==> s.me == app.bag.leader)
  }

  predicate Fits(s: Step, us: AppBag) {
    && WellFormed(us) && s.me < |us.units|
    && (s.CertificateStep? ==> |s.bundle| >= 2 && |us.units[s.me].bundle| >= 2)
  }

  /** What a hook writes into its application's databags. */
  function BagAfter(s: Step, l: Local, us: AppBag, them: AppBag): (r: AppBag)
    requires Fits(s, us)
    ensures WellFormed(r) && |r.units| == |us.units|
  {
    match s
    case CertificateStep(_, me, bundle) => CertificateBag(us, me, bundle)
    case BrokenStep(_, me, bundle) => BrokenBag(us, me, bundle)
    case ConfigStep(role, me, _) => PassBag(role, l, us, them, me)
    case RestartStep(_, me, healthy) => RestartBag(l, us, me, healthy)
    case StatusStep(role, me, _) => PassBag(role, l, us, them, me)
    case OfferStep(_, me) => us.(ca := us.units[me].bundle)
    case ElectStep(_, me) => us.(leader := me)
  }

  /** What a hook does to its own unit's disk and process. */
  function LocalAfter(s: Step, l: Local, us: AppBag, them: AppBag, now: nat): Local
    requires Fits(s, us)
  {
    match s
    case CertificateStep(_, me, bundle) => l.(disk := CertificateDisk(us.units[me], them, bundle, now))
    case BrokenStep(_, me, bundle) => l.(disk := BrokenDisk(us.units[me], them, bundle, now))
    case ConfigStep(role, me, properties) => PassLocal(role, l, us, them, me, properties, now)
    case RestartStep(_, _, healthy) => RestartLocal(l, healthy, now)
    case StatusStep(role, me, properties) => StatusLocal(role, l, us, them, me, properties, now)
    case OfferStep(_, _) => l
    case ElectStep(_, _) => l
  }

  /** The databags differ at most in this unit's own entry, in which the bundle is `bundle`. */
  ghost predicate OnlyUnit(us: AppBag, r: AppBag, me: nat, bundle: seq<Certificate>) {
    && me < |us.units| && |r.units| == |us.units|
    && (forall i: nat | i < |us.units| && i != me :: r.units[i] == us.units[i])
    && r.units[me].bundle == bundle
  }

  lemma PublishKeeps(l: Local, us: AppBag, me: nat, force: bool)
    requires WellFormed(us) && me < |us.units|
    ensures var r := PublishTrust(l, us, me, force);
            && OnlyUnit(us, r, me, us.units[me].bundle)
            && r.units[me].rotate == us.units[me].rotate
            && r.leader == us.leader && r.ca == us.ca && r.rotating == us.rotating
  {
    hide TrustedByAll;
  }

  lemma PassKeepsBundles(role: Role, l: Local, us: AppBag, them: AppBag, me: nat)
    requires WellFormed(us) && me < |us.units|
    ensures var r := PassBag(role, l, us, them, me);
            && OnlyUnit(us, r, me, us.units[me].bundle)
            && (r.units[me].rotate ==> us.units[me].rotate)
            && r.leader == us.leader
  {
    hide HeldBack, AnyRotating, PublishTrust;
    PublishKeeps(l, us, me, false);
  }

  /** Only the two certificate events change a bundle, and only the unit's own; an internal step
      clears the rotation flag of its own unit or leaves all flags alone. */
  lemma StepBundles(s: Step, l: Local, us: AppBag, them: AppBag)
    requires Fits(s, us)
    ensures var r := BagAfter(s, l, us, them);
            && OnlyUnit(us, r, s.me, if s.CertificateStep? || s.BrokenStep? then s.bundle else us.units[s.me].bundle)
            && (s.Internal() && r.units[s.me].rotate ==> us.units[s.me].rotate)
            && (!s.ElectStep? ==> r.leader == us.leader)
  {
    hide PassBag, PublishTrust;
    if s.ConfigStep? || s.StatusStep? { PassKeepsBundles(s.role, l, us, them, s.me); }
    if s.RestartStep? { PublishKeeps(l, us, s.me, true); }
  }

  ghost function Apply(w: World, s: Step): (r: World)
    requires WellFormedWorld(w) && Enabled(w, s)
    ensures WellFormedWorld(r)
    ensures r.Of(s.role.Other()) == w.Of(s.role.Other()) && r.clock == w.clock + 1
  {
    var app := w.Of(s.role);
    var them := w.Of(s.role.Other()).bag;
    var us := BagAfter(s, app.locals[s.me], app.bag, them);
    var l := LocalAfter(s, app.locals[s.me], app.bag, them, w.clock + 1);
    StepKeepsForm(s, app, them, l);
    w.With(s.role, App(us, app.locals[s.me := l])).(clock := w.clock + 1)
  }

  lemma StepKeepsForm(s: Step, app: App, them: AppBag, l: Local)
    requires WellFormedApp(app) && Fits(s, app.bag)
    requires s.CertificateStep? || s.BrokenStep? ==> GoodBundle(s.bundle)
    ensures WellFormedApp(App(BagAfter(s, app.locals[s.me], app.bag, them), app.locals[s.me := l]))
  {
    hide BagAfter, GoodBundle;
    var us := BagAfter(s, app.locals[s.me], app.bag, them);
    StepBundles(s, app.locals[s.me], app.bag, them);
    forall u | u in us.units ensures GoodBundle(u.bundle) {
      var i :| 0 <= i < |us.units| && us.units[i] == u;
      assert app.bag.units[i] in app.bag.units;
    }
  }

  ghost predicate Runs(w: World, steps: seq<Step>)
    requires WellFormedWorld(w)
    decreases |steps|, 0
  {
    steps == [] || (var n := |steps| - 1; Runs(w, steps[..n]) && Enabled(Run(w, steps[..n]), steps[n]))
  }

  ghost function Run(w: World, steps: seq<Step>): (r: World)
    requires WellFormedWorld(w) && Runs(w, steps)
    ensures WellFormedWorld(r)
    decreases |steps|, 1
  {
    if steps == [] then w else var n := |steps| - 1; Apply(Run(w, steps[..n]), steps[n])
  }
}
