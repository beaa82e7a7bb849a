/** Progress of the rotation protocol: from which states the hooks of the two charms can clear every
    rotation flag, and from which they never can. */
module RotationProgress {
  import opened Truststore
  import opened Rotation
  import opened RotationSafety

  // ---- What every step keeps ----

  /** A unit with nothing to do has loaded and published its truststore. */
  ghost predicate UnitBase(l: Local, b: UnitBag) {
    && l.disk.trust != map[]
    && (!b.rotate && !l.pending ==> l.lastRestart > l.disk.modified && b.published == l.disk.trust.Values)
  }

  ghost predicate AppBase(app: App)
    requires WellFormedApp(app)
  {
    app.bag.ca != [] && forall i: nat | i < |app.locals| :: UnitBase(app.locals[i], app.bag.units[i])
  }

  ghost predicate Base(w: World)
    requires WellFormedWorld(w)
  {
    CoherentWorld(w) && AppBase(w.broker) && AppBase(w.controller)
  }

  lemma PassUpdates(d: Disk, remote: seq<Certificate>, now: nat)
    ensures PeerPass(d, remote, now).trust.Values == d.trust.Values ==>
            PeerPass(d, remote, now) == d && Members(remote) <= d.trust.Values
    ensures d.trust != map[] ==> PeerPass(d, remote, now).trust != map[]
  {
    PassFixedPoint(d, remote, now);
    if !(Members(remote) <= d.trust.Values) {
      var i: nat :| i < |remote| && remote[i] !in d.trust.Values;
      assert PeerAlias(d.trust, i) in Placed(d.trust, remote, |remote|);
      assert PeerPass(d, remote, now).trust[PeerAlias(d.trust, i)] == remote[i];
    }
    if a :| a in d.trust { assert a in PeerPass(d, remote, now).trust; }
  }

  lemma PassDetails(role: Role, l: Local, us: AppBag, them: AppBag, me: nat, properties: bool, now: nat)
    requires WellFormed(us) && me < |us.units| && them.ca != []
    ensures var l2, r := PassLocal(role, l, us, them, me, properties, now), PassBag(role, l, us, them, me);
            && l2 == l.(disk := PeerPass(l.disk, them.ca, now), pending := l2.pending)
            && (l.pending ==> l2.pending)
            && (HeldBack(role, PublishTrust(l, us, me, false), them, me) ==>
               r == PublishTrust(l, us, me, false) && l2.pending == l.pending)
            && (!HeldBack(role, PublishTrust(l, us, me, false), them, me) ==>
                  && r == PassDone(role, PublishTrust(l, us, me, false), me)
                  && (us.units[me].rotate || PeerPass(l.disk, them.ca, now).trust.Values != l.disk.trust.Values ==>
                     l2.pending))
            && r.units[me].published == PublishTrust(l, us, me, false).units[me].published
            && (r.ca == us.ca || r.ca == us.units[me].bundle)
  {
    hide PeerPass, PublishTrust, HeldBack, AnyRotating;
    PublishKeeps(l, us, me, false);
  }

  lemma PublishIs(l: Local, us: AppBag, me: nat, force: bool)
    requires WellFormed(us) && me < |us.units| && l.disk.trust != map[]
    ensures PublishTrust(l, us, me, force).units[me].published
            == if force || l.lastRestart > l.disk.modified then l.disk.trust.Values else us.units[me].published
  {
    hide TrustedByAll;
  }

  lemma PassBase(role: Role, l: Local, us: AppBag, them: AppBag, me: nat, properties: bool, now: nat)
    requires WellFormed(us) && me < |us.units| && them.ca != [] && UnitBase(l, us.units[me])
    ensures UnitBase(PassLocal(role, l, us, them, me, properties, now), PassBag(role, l, us, them, me).units[me])
  {
    hide PeerPass, PublishTrust, PassLocal, PassBag, AnyRotating, Exempt, GateOpen;
    PublishKeeps(l, us, me, false);
    PublishIs(l, us, me, false);
    PassUpdates(l.disk, them.ca, now);
    PassDetails(role, l, us, them, me, properties, now);
  }

  /** A hook keeps its unit that way; a delivered certificate is a new one. */
  lemma LocalBase(s: Step, l: Local, us: AppBag, them: AppBag, clock: nat)
    requires Fits(s, us) && Coherent(l, us.units[s.me], clock) && UnitBase(l, us.units[s.me]) && us.ca != [] &&
             them.ca != []
    requires GoodBundle(us.units[s.me].bundle)
    requires s.CertificateStep? ==> GoodBundle(s.bundle) && s.bundle[0] != us.units[s.me].bundle[0]
    requires s.BrokenStep? ==> GoodBundle(s.bundle)
    requires s.RestartStep? ==> l.pending
    ensures UnitBase(LocalAfter(s, l, us, them, clock + 1), BagAfter(s, l, us, them).units[s.me])
    ensures BagAfter(s, l, us, them).ca != []
  {
    hide PeerPass, PublishTrust, PassLocal, PassBag, CleanupDue, Install, Rebuild, FilesHold, DuplicateFree;
    match s
    case CertificateStep(_, me, bundle) =>
      var kept := if bundle[1] != us.units[me].bundle[1] then us.units[me].bundle else [];
      InstalledSome(bundle, them.ca, kept, clock + 1);
    case BrokenStep(_, me, bundle) => InstalledSome(bundle, them.ca, us.units[me].bundle, clock + 1);
    case ConfigStep(role, me, properties) =>
      PassBase(role, l, us, them, me, properties, clock + 1);
      PassDetails(role, l, us, them, me, properties, clock + 1);
    case RestartStep(_, me, healthy) =>
      PublishKeeps(l, us, me, true);
      PublishIs(l, us, me, true);
    case StatusStep(role, me, properties) =>
      PassBase(role, l, us, them, me, properties, clock + 1);
      PassDetails(role, l, us, them, me, properties, clock + 1);
      PassFiles(l.disk, them.ca, us.units[me].bundle, clock + 1);
      RebuiltSome(PeerPass(l.disk, them.ca, clock + 1), us.units[me].bundle, them.ca, clock + 1);
    case OfferStep(_, _) =>
    case ElectStep(_, _) =>
  }

  lemma InstalledSome(bundle: seq<Certificate>, remote: seq<Certificate>, kept: seq<Certificate>, now: nat)
    requires bundle != []
    ensures Install(bundle, remote, kept, now).trust != map[]
  {
    hide Install;
    InstallExact(bundle, remote, kept, now);
    assert Bundle(0) in Install(bundle, remote, kept, now).trust;
  }

  lemma RebuiltSome(d: Disk, bundle: seq<Certificate>, remote: seq<Certificate>, now: nat)
    requires bundle != [] && FilesHold(d.files, bundle)
    ensures Rebuild(d, bundle, remote, now).trust != map[]
  {
    hide Rebuild;
    RebuildExact(d, bundle, remote, now);
    assert Bundle(0) in Rebuild(d, bundle, remote, now).trust;
  }

  lemma BaseAt(w: World, role: Role)
    requires WellFormedWorld(w) && Base(w)
    ensures WellFormedApp(w.Of(role)) && AppBase(w.Of(role)) && CoherentApp(w.Of(role), w.clock)
  {
    hide WellFormedApp, AppBase, CoherentApp;
  }

  lemma StepBase(w: World, s: Step)
    requires WellFormedWorld(w) && Base(w) && Enabled(w, s)
    ensures Base(Apply(w, s))
  {
    hide BagAfter, LocalAfter, Apply, UnitBase, Coherent, CoherentWorld, GoodBundle;
    var app, after, them := w.Of(s.role), Apply(w, s).Of(s.role), w.Of(s.role.Other());
    StepCoherent(w, s);
    StepHere(w, s);
    BaseAt(w, s.role);
    BaseAt(w, s.role.Other());
    assert app.bag.units[s.me] in app.bag.units;
    LocalBase(s, app.locals[s.me], app.bag, them.bag, w.clock);
    assert AppBase(after) && AppBase(Apply(w, s).Of(s.role.Other()));
  }

  lemma {:induction false} RunBase(w: World, steps: seq<Step>)
    requires WellFormedWorld(w) && Base(w) && Runs(w, steps)
    ensures Base(Run(w, steps))
    decreases |steps|
  {
    if steps != [] {
      var n := |steps| - 1;
      RunBase(w, steps[..n]);
      StepBase(Run(w, steps[..n]), steps[n]);
    }
  }

  // ---- Sequences of hooks ----

  /** A run of hooks that need nothing from outside the two charms. */
  ghost predicate Hooks(w: World, steps: seq<Step>)
    requires WellFormedWorld(w)
  {
    Runs(w, steps) && forall s | s in steps :: s.Internal()
  }

  ghost predicate Reach(w: World, r: World)
    requires WellFormedWorld(w)
  {
    exists steps :: Hooks(w, steps) && Run(w, steps) == r
  }

  lemma ReachSelf(w: World)
    requires WellFormedWorld(w)
    ensures Reach(w, w)
  {
    assert Hooks(w, []) && Run(w, []) == w;
  }

  lemma ReachStep(w: World, r: World, s: Step)
    requires WellFormedWorld(w) && WellFormedWorld(r) && Reach(w, r) && Enabled(r, s) && s.Internal()
    ensures Reach(w, Apply(r, s))
  {
    hide Apply, Enabled, WellFormedWorld;
    var steps :| Hooks(w, steps) && Run(w, steps) == r;
    var longer := steps + [s];
    assert longer[..|longer| - 1] == steps;
    assert Hooks(w, longer) && Run(w, longer) == Apply(r, s);
  }

  lemma {:induction false} ReachOn(w: World, m: World, steps: seq<Step>)
    requires WellFormedWorld(w) && WellFormedWorld(m) && Reach(w, m) && Hooks(m, steps)
    ensures Reach(w, Run(m, steps))
    decreases |steps|
  {
    hide Apply, Enabled, WellFormedWorld, Reach;
    if steps != [] {
      var n := |steps| - 1;
      ReachOn(w, m, steps[..n]);
      ReachStep(w, Run(m, steps[..n]), steps[n]);
    }
  }

  lemma ReachJoin(w: World, m: World, r: World)
    requires WellFormedWorld(w) && WellFormedWorld(m) && Reach(w, m) && Reach(m, r)
    ensures Reach(w, r)
  {
    hide Run;
    var steps :| Hooks(m, steps) && Run(m, steps) == r;
    ReachOn(w, m, steps);
  }

  /** The unit's next pass does not wait at the gate. */
  predicate Free(role: Role, b: UnitBag, them: AppBag) {
    !b.rotate || GateOpen(b, them) || (role.BrokerApp? && them.rotating)
  }

  // ---- What a unit can publish ----

  /** What no pass takes out of a store: entries outside the `new-` aliases. */
  function Firm(t: Trust): set<Certificate> {
    set a | a in t && !a.NewClusterTls? :: t[a]
  }

  lemma FirmPass(d: Disk, remote: seq<Certificate>, now: nat)
    ensures Firm(d.trust) <= Firm(PeerPass(d, remote, now).trust)
    ensures Firm(d.trust) <= d.trust.Values
  {
    hide PeerPass;
    forall c | c in Firm(d.trust) ensures c in Firm(PeerPass(d, remote, now).trust) {
      var a :| a in d.trust && !a.NewClusterTls? && d.trust[a] == c;
      PassKeeps(d, remote, now, a);
    }
  }

  /** The unit has published `cs`, or can do so without passing the gate: it is not rotating, or has a
      restart queued, or has just restarted with a store that holds them. */
  predicate CanTell(l: Local, b: UnitBag, cs: set<Certificate>) {
    !b.rotate || l.pending || cs <= b.published || (l.lastRestart > l.disk.modified && cs <= l.disk.trust.Values)
  }

  /** The same of a leader that is to refresh its application's trust as well. */
  predicate CanRefresh(l: Local, b: UnitBag, cs: set<Certificate>) {
    !b.rotate || l.pending || (l.lastRestart > l.disk.modified && cs <= l.disk.trust.Values)
  }

  /** From `w` to `r`, hooks ran on this one unit only. */
  ghost predicate OnlyAt(w: World, r: World, role: Role, me: nat)
    requires WellFormedWorld(w) && WellFormedWorld(r)
  {
    var a, b := w.Of(role), r.Of(role);
    && r.Of(role.Other()) == w.Of(role.Other())
    && |b.locals| == |a.locals| == |a.bag.units| == |b.bag.units| && me < |a.locals|
    && b.bag.leader == a.bag.leader
    && (forall i: nat | i < |a.locals| && i != me :: b.locals[i] == a.locals[i] && b.bag.units[i] == a.bag.units[i])
    && b.bag.units[me].bundle == a.bag.units[me].bundle
    && (b.bag.units[me].rotate ==> a.bag.units[me].rotate)
    && (b.bag.ca == a.bag.ca || b.bag.ca == a.bag.units[a.bag.leader].bundle)
    && Firm(a.locals[me].disk.trust) <= Firm(b.locals[me].disk.trust)
  }

  lemma OnlyAtJoin(w: World, m: World, r: World, role: Role, me: nat)
    requires WellFormedWorld(w) && WellFormedWorld(m) && WellFormedWorld(r)
    requires OnlyAt(w, m, role, me) && OnlyAt(m, r, role, me)
    ensures OnlyAt(w, r, role, me)
  {
    hide Firm;
    var a, k := w.Of(role).bag, w.Of(role).bag.leader;
    Sized(w, role);
    assert m.Of(role).bag.units[k].bundle == a.units[k].bundle;
  }

  /** One pass of a unit. */
  lemma OnePass(w: World, role: Role, me: nat) returns (r: World)
    requires WellFormedWorld(w) && Base(w) && me < |w.Of(role).bag.units|
    ensures WellFormedWorld(r) && Base(r) && Reach(w, r) && OnlyAt(w, r, role, me)
    ensures var l, us, them := w.Of(role).locals[me], w.Of(role).bag, w.Of(role.Other()).bag;
            && r.Of(role).locals[me].disk == PeerPass(l.disk, them.ca, w.clock + 1)
            && (l.pending ==> r.Of(role).locals[me].pending)
            && r.Of(role).bag
               == (if Free(role, us.units[me], them) then PassDone(role, PublishTrust(l, us, me, false), me)
                                  else PublishTrust(l, us, me, false))
            && (Free(role, us.units[me], them) ==> !r.Of(role).bag.units[me].rotate)
            && (!Free(role, us.units[me], them) ==> r.Of(role).bag.units[me].rotate)
  {
    hide Apply, Base, BagAfter, LocalAfter, Reach, WellFormedApp, PublishTrust, PeerPass, AnyRotating, GateOpen, Firm,
      Free, HeldBack;
    var s := ConfigStep(role, me, false);
    Sized(w, role);
    var l, us, them := w.Of(role).locals[me], w.Of(role).bag, w.Of(role.Other()).bag;
    r := Apply(w, s);
    StepBase(w, s);
    StepHere(w, s);
    ReachSelf(w);
    ReachStep(w, w, s);
    OfferSome(w, role);
    StepBundles(s, l, us, them);
    FreeNotHeld(role, l, us, them, me);
    ConfigIs(s, l, us, them, w.clock + 1);
    PassDetails(role, l, us, them, me, false, w.clock + 1);
    PublishKeeps(l, us, me, false);
    FirmPass(l.disk, them.ca, w.clock + 1);
  }

  lemma ConfigIs(s: Step, l: Local, us: AppBag, them: AppBag, now: nat)
    requires Fits(s, us) && s.ConfigStep?
    ensures BagAfter(s, l, us, them) == PassBag(s.role, l, us, them, s.me)
    ensures LocalAfter(s, l, us, them, now) == PassLocal(s.role, l, us, them, s.me, s.properties, now)
  {
    hide PassBag, PassLocal;
  }

  lemma OfferSome(w: World, role: Role)
    requires WellFormedWorld(w) && Base(w)
    ensures w.Of(role.Other()).bag.ca != []
  {
    BaseAt(w, role.Other());
  }

  lemma FreeNotHeld(role: Role, l: Local, us: AppBag, them: AppBag, me: nat)
    requires WellFormed(us) && me < |us.units|
    ensures HeldBack(role, PublishTrust(l, us, me, false), them, me) <==> !Free(role, us.units[me], them)
    ensures !Free(role, us.units[me], them) ==> us.units[me].rotate
  {
    hide PublishTrust;
    PublishKeeps(l, us, me, false);
    var told := PublishTrust(l, us, me, false);
    assert told.units[me] in told.units;
  }

  /** Passes adopt the whole remote offer, whether the unit waits at the gate or not. */
  lemma {:induction false} AdoptAll(w: World, role: Role, me: nat, n: nat) returns (r: World)
    requires WellFormedWorld(w) && Base(w) && me < |w.Of(role).bag.units| && me < |w.Of(role).locals|
    requires |Astray(w.Of(role).locals[me].disk.trust, w.Of(role.Other()).bag.ca)| <= n
    ensures WellFormedWorld(r) && Base(r) && Reach(w, r) && OnlyAt(w, r, role, me)
    ensures Members(w.Of(role.Other()).bag.ca) <= r.Of(role).locals[me].disk.trust.Values
    ensures w.Of(role).locals[me].pending ==> r.Of(role).locals[me].pending
    ensures !Free(role, w.Of(role).bag.units[me], w.Of(role.Other()).bag) ==> r.Of(role).bag.units[me].rotate
    decreases n
  {
    hide Base, Reach, Astray, WellFormedApp, PublishTrust, PeerPass, PassDone, Firm;
    Sized(w, role);
    var l, ca := w.Of(role).locals[me], w.Of(role.Other()).bag.ca;
    if Members(ca) <= l.disk.trust.Values {
      r := w;
      ReachSelf(w);
    } else {
      var m := OnePass(w, role, me);
      Sized(m, role);
      PassBringsHome(l.disk, ca, w.clock + 1);
      SmallerSet(Astray(m.Of(role).locals[me].disk.trust, ca), Astray(l.disk.trust, ca));
      r := AdoptAll(m, role, me, n - 1);
      ReachJoin(w, m, r);
      OnlyAtJoin(w, m, r, role, me);
    }
  }

  /** The application's trust is the intersection of what its units publish now. */
  ghost predicate Fresh(us: AppBag)
    requires WellFormed(us)
  {
    us.trust == TrustedByAll(us.units)
  }

  /** A queued restart loads and publishes what is on disk. */
  lemma LoadQueued(w: World, role: Role, me: nat) returns (r: World)
    requires WellFormedWorld(w) && Base(w) && me < |w.Of(role).bag.units| && me < |w.Of(role).locals|
    requires w.Of(role).locals[me].pending
    ensures WellFormedWorld(r) && Base(r) && Reach(w, r) && OnlyAt(w, r, role, me) && WellFormed(r.Of(role).bag)
    ensures r.Of(role).locals[me].disk == w.Of(role).locals[me].disk && !r.Of(role).locals[me].pending
    ensures r.Of(role).bag.units[me].published == w.Of(role).locals[me].disk.trust.Values
    ensures r.Of(role).bag.units[me].rotate == w.Of(role).bag.units[me].rotate
    ensures me == w.Of(role).bag.leader ==> Fresh(r.Of(role).bag)
  {
    hide Apply, Base, Reach, PublishTrust, BagAfter, LocalAfter, WellFormedApp, TrustedByAll, Firm;
    var s := RestartStep(role, me, true);
    Sized(w, role);
    var l, us := w.Of(role).locals[me], w.Of(role).bag;
    r := Apply(w, s);
    StepBase(w, s);
    StepHere(w, s);
    ReachSelf(w);
    ReachStep(w, w, s);
    Sized(r, role);
    BaseUnit(w, role, me);
    RestartIs(s, l, us, w.Of(role.Other()).bag, w.clock + 1);
    PublishKeeps(l, us, me, true);
    PublishFresh(l, us, me, true);
  }

  lemma RestartIs(s: Step, l: Local, us: AppBag, them: AppBag, now: nat)
    requires Fits(s, us) && s.RestartStep? && s.healthy
    ensures BagAfter(s, l, us, them) == PublishTrust(l, us, s.me, true)
    ensures LocalAfter(s, l, us, them, now).disk == l.disk && !LocalAfter(s, l, us, them, now).pending
  {
    hide PublishTrust;
  }

  /** A publication that is not held up by the times writes the store, and at the leader the trust. */
  lemma PublishFresh(l: Local, us: AppBag, me: nat, force: bool)
    requires WellFormed(us) && me < |us.units| && l.disk.trust != map[] && (force || l.lastRestart > l.disk.modified)
    ensures var r := PublishTrust(l, us, me, force);
            && r.units[me].published == l.disk.trust.Values
            && (me == us.leader ==> Fresh(r))
  {
    hide TrustedByAll;
  }

  /** A pass of a unit that is up to date publishes, and at the leader refreshes the application's trust
      and flag. */
  lemma LastPass(role: Role, l: Local, us: AppBag, me: nat)
    requires WellFormed(us) && me < |us.units| && l.disk.trust != map[] && l.lastRestart > l.disk.modified
    ensures var r := PassDone(role, PublishTrust(l, us, me, false), me);
            && r.units[me].published == l.disk.trust.Values
            && (me == us.leader ==> Fresh(r) && r.rotating == AnyRotating(r.units))
  {
    var told := PublishTrust(l, us, me, false);
    var r := PassDone(role, told, me);
    hide AnyRotating, TrustedByAll;
    SamePublished(told.units, r.units);
  }

  lemma BaseUnit(w: World, role: Role, me: nat)
    requires WellFormedWorld(w) && Base(w) && me < |w.Of(role).locals| && me < |w.Of(role).bag.units|
    ensures UnitBase(w.Of(role).locals[me], w.Of(role).bag.units[me])
  {
    hide UnitBase, WellFormedApp;
    BaseAt(w, role);
  }

  /** A unit that is not held back at the gate can rotate, adopt, restart and publish. */
  lemma SettleUnit(w: World, role: Role, me: nat) returns (r: World)
    requires WellFormedWorld(w) && Base(w) && me < |w.Of(role).bag.units| && me < |w.Of(role).locals|
    requires Free(role, w.Of(role).bag.units[me], w.Of(role.Other()).bag)
    ensures WellFormedWorld(r) && Base(r) && Reach(w, r) && OnlyAt(w, r, role, me) && WellFormed(r.Of(role).bag)
    ensures !r.Of(role).bag.units[me].rotate
    ensures Members(w.Of(role.Other()).bag.ca) + Firm(w.Of(role).locals[me].disk.trust)
            <= r.Of(role).bag.units[me].published
    ensures me == w.Of(role).bag.leader ==>
              Fresh(r.Of(role).bag) && r.Of(role).bag.rotating == AnyRotating(r.Of(role).bag.units)
  {
    hide Base, Reach, WellFormedApp, PublishTrust, PeerPass, PassDone, Astray, AnyRotating, TrustedByAll, GateOpen,
      Firm, Fresh, Members;
    var ca := w.Of(role.Other()).bag.ca;
    var m1 := OnePass(w, role, me);
    Sized(m1, role);
    AstrayBound(m1.Of(role).locals[me].disk.trust, ca);
    var m2 := AdoptAll(m1, role, me, |ca|);
    Sized(m2, role);
    var m3 := LoadIfQueued(m2, role, me);
    Sized(m3, role);
    BaseUnit(m3, role, me);
    FirmPass(m3.Of(role).locals[me].disk, ca, 0);
    r := OnePass(m3, role, me);
    Sized(r, role);
    LastPass(role, m3.Of(role).locals[me], m3.Of(role).bag, me);
    ReachJoin(m2, m3, r);
    ReachJoin(m1, m2, r);
    ReachJoin(w, m1, r);
    OnlyAtJoin(w, m1, m2, role, me);
    OnlyAtJoin(w, m2, m3, role, me);
    OnlyAtJoin(w, m3, r, role, me);
  }

  lemma LoadIfQueued(w: World, role: Role, me: nat) returns (r: World)
    requires WellFormedWorld(w) && Base(w) && me < |w.Of(role).bag.units| && me < |w.Of(role).locals|
    ensures WellFormedWorld(r) && Base(r) && Reach(w, r) && OnlyAt(w, r, role, me) && !r.Of(role).locals[me].pending
    ensures r.Of(role).locals[me].disk == w.Of(role).locals[me].disk
    ensures r.Of(role).bag.units[me].rotate == w.Of(role).bag.units[me].rotate
  {
    hide Base, Reach, WellFormedApp, Firm;
    if w.Of(role).locals[me].pending {
      r := LoadQueued(w, role, me);
    } else {
      r := w;
      Sized(w, role);
      ReachSelf(w);
    }
  }

  /** A unit with a queued restart can adopt and publish the remote offer, even at the shut gate. */
  lemma TellQueued(w: World, role: Role, me: nat) returns (r: World)
    requires WellFormedWorld(w) && Base(w) && me < |w.Of(role).bag.units| && me < |w.Of(role).locals|
    requires w.Of(role).locals[me].pending && !Free(role, w.Of(role).bag.units[me], w.Of(role.Other()).bag)
    ensures WellFormedWorld(r) && Base(r) && Reach(w, r) && OnlyAt(w, r, role, me) && WellFormed(r.Of(role).bag)
    ensures r.Of(role).bag.units[me].rotate
    ensures Members(w.Of(role.Other()).bag.ca) + Firm(w.Of(role).locals[me].disk.trust)
            <= r.Of(role).bag.units[me].published
    ensures me == w.Of(role).bag.leader ==> Fresh(r.Of(role).bag)
  {
    hide Base, Reach, WellFormedApp, PeerPass, Astray, Free, Firm, Fresh, Members;
    var ca := w.Of(role.Other()).bag.ca;
    AstrayBound(w.Of(role).locals[me].disk.trust, ca);
    var m := AdoptAll(w, role, me, |ca|);
    Sized(m, role);
    FirmPass(m.Of(role).locals[me].disk, ca, 0);
    r := LoadQueued(m, role, me);
    ReachJoin(w, m, r);
    OnlyAtJoin(w, m, r, role, me);
  }

  /** A unit that has just restarted publishes its store with its next pass, even at the shut gate. */
  lemma TellLoaded(w: World, role: Role, me: nat) returns (r: World)
    requires WellFormedWorld(w) && Base(w) && me < |w.Of(role).bag.units| && me < |w.Of(role).locals|
    requires w.Of(role).locals[me].lastRestart > w.Of(role).locals[me].disk.modified
    requires !Free(role, w.Of(role).bag.units[me], w.Of(role.Other()).bag)
    ensures WellFormedWorld(r) && Base(r) && Reach(w, r) && OnlyAt(w, r, role, me) && WellFormed(r.Of(role).bag)
    ensures r.Of(role).bag.units[me].rotate
    ensures r.Of(role).bag.units[me].published == w.Of(role).locals[me].disk.trust.Values
    ensures me == w.Of(role).bag.leader ==> Fresh(r.Of(role).bag)
  {
    hide Base, Reach, WellFormedApp, PeerPass, Free, Firm, Fresh, PublishTrust;
    Sized(w, role);
    BaseUnit(w, role, me);
    r := OnePass(w, role, me);
    Sized(r, role);
    PublishFresh(w.Of(role).locals[me], w.Of(role).bag, me, false);
  }

  // ---- A whole application ----

  /** The certificates are on offer or firmly in the store. */
  predicate Within(cs: set<Certificate>, l: Local, them: AppBag) {
    cs <= Members(them.ca) + Firm(l.disk.trust)
  }

  /** The unit can publish `cs`, by passing the gate or otherwise. */
  predicate Able(role: Role, l: Local, b: UnitBag, them: AppBag, cs: set<Certificate>) {
    Free(role, b, them) || CanTell(l, b, cs)
  }

  /** The unit can publish `cs` and, if it leads, refresh the trust. */
  lemma TellUnit(w: World, role: Role, me: nat, cs: set<Certificate>) returns (r: World)
    requires WellFormedWorld(w) && Base(w) && me < |w.Of(role).bag.units| && me < |w.Of(role).locals|
    requires var l, b, them := w.Of(role).locals[me], w.Of(role).bag.units[me], w.Of(role.Other()).bag;
             && Within(cs, l, them) && Able(role, l, b, them, cs)
             && (me == w.Of(role).bag.leader ==> Free(role, b, them) || CanRefresh(l, b, cs))
    ensures WellFormedWorld(r) && Base(r) && Reach(w, r) && OnlyAt(w, r, role, me) && WellFormed(r.Of(role).bag)
    ensures cs <= r.Of(role).bag.units[me].published
    ensures r.Of(role).bag.units[me].rotate <==> !Free(role, w.Of(role).bag.units[me], w.Of(role.Other()).bag)
    ensures me == w.Of(role).bag.leader ==> Fresh(r.Of(role).bag)
    ensures me == w.Of(role).bag.leader && Free(role, w.Of(role).bag.units[me], w.Of(role.Other()).bag) ==>
              r.Of(role).bag.rotating == AnyRotating(r.Of(role).bag.units)
  {
    hide Base, Reach, WellFormedApp, GateOpen, Firm, Fresh, Members, AnyRotating;
    Sized(w, role);
    var l, b, us, them := w.Of(role).locals[me], w.Of(role).bag.units[me], w.Of(role).bag, w.Of(role.Other()).bag;
    if Free(role, b, them) {
      r := SettleUnit(w, role, me);
    } else if l.pending {
      r := TellQueued(w, role, me);
    } else if l.lastRestart > l.disk.modified && cs <= l.disk.trust.Values {
      r := TellLoaded(w, role, me);
    } else {
      r := w;
      ReachSelf(w);
    }
  }

  /** From `w` to `r`, the units in `done` have published `cs`; those that were not held back have rotated;
      the others, and the other application, are as they were. */
  ghost predicate ToldFrom(w: World, r: World, role: Role, done: set<nat>, cs: set<Certificate>)
    requires WellFormedWorld(w) && WellFormedWorld(r)
  {
    var a, b, them := w.Of(role), r.Of(role), w.Of(role.Other()).bag;
    && r.Of(role.Other()) == w.Of(role.Other())
    && |b.locals| == |a.locals| == |a.bag.units| == |b.bag.units| && b.bag.leader == a.bag.leader
    && (b.bag.ca == a.bag.ca || b.bag.ca == a.bag.units[a.bag.leader].bundle)
    && (forall i: nat | i < |a.locals| ::
          b.bag.units[i].bundle == a.bag.units[i].bundle &&
            Firm(a.locals[i].disk.trust) <= Firm(b.locals[i].disk.trust))
    && (forall i: nat | i < |a.locals| && i in done :: cs <= b.bag.units[i].published)
    && (forall i: nat | i < |a.locals| && i in done :: b.bag.units[i].rotate <==> !Free(role, a.bag.units[i], them))
    && (forall i: nat | i < |a.locals| && i !in done ::
          b.bag.units[i] == a.bag.units[i] && b.locals[i] == a.locals[i])
  }

  lemma TellOne(w: World, m: World, role: Role, done: set<nat>, me: nat, cs: set<Certificate>) returns (r: World)
    requires WellFormedWorld(w) && WellFormedWorld(m) && Base(m) && ToldFrom(w, m, role, done, cs) && Reach(w, m)
    requires me < |w.Of(role).locals| && me < |w.Of(role).bag.units| && me !in done
    requires var l, b, them := w.Of(role).locals[me], w.Of(role).bag.units[me], w.Of(role.Other()).bag;
             && Within(cs, l, them) && Able(role, l, b, them, cs)
             && (me == w.Of(role).bag.leader ==> Free(role, b, them) || CanRefresh(l, b, cs))
    ensures WellFormedWorld(r) && Base(r) && ToldFrom(w, r, role, done + {me}, cs) && Reach(w, r)
    ensures WellFormed(r.Of(role).bag)
    ensures me == w.Of(role).bag.leader ==> Fresh(r.Of(role).bag)
    ensures me == w.Of(role).bag.leader && Free(role, w.Of(role).bag.units[me], w.Of(role.Other()).bag) ==>
              r.Of(role).bag.rotating == AnyRotating(r.Of(role).bag.units)
  {
    hide Base, Reach, WellFormedApp, Free, Firm, Fresh, Within, Able, CanRefresh, AnyRotating;
    Sized(w, role);
    Sized(m, role);
    r := TellUnit(m, role, me, cs);
    ReachJoin(w, m, r);
  }

  function Below(n: nat, except: nat): (r: set<nat>)
    ensures forall i: nat :: i in r <==> i < n && i != except
  {
    Indices(n) - {except}
  }

  /** All units can publish `cs`, and the leader can refresh the trust. */
  ghost predicate AllAble(role: Role, app: App, them: AppBag, cs: set<Certificate>)
    requires WellFormedApp(app)
  {
    && (forall i: nat | i < |app.locals| ::
          Within(cs, app.locals[i], them) && Able(role, app.locals[i], app.bag.units[i], them, cs))
    && (|| Free(role, app.bag.units[app.bag.leader], them)
        || CanRefresh(app.locals[app.bag.leader], app.bag.units[app.bag.leader], cs))
  }

  lemma {:induction false} TellOthers(w: World, role: Role, n: nat, cs: set<Certificate>) returns (r: World)
    requires WellFormedWorld(w) && WellFormedApp(w.Of(role)) && Base(w) && n <= |w.Of(role).locals|
    requires AllAble(role, w.Of(role), w.Of(role.Other()).bag, cs)
    ensures WellFormedWorld(r) && Base(r) && Reach(w, r)
    ensures ToldFrom(w, r, role, Below(n, w.Of(role).bag.leader), cs)
  {
    hide Base, Reach, WellFormedApp, Free, Firm, ToldFrom, Fresh, Within, Able, CanRefresh, AnyRotating;
    Sized(w, role);
    var leader := w.Of(role).bag.leader;
    if n == 0 {
      r := w;
      ReachSelf(w);
      ToldNothing(w, role, cs);
      assert Below(0, leader) == {};
    } else {
      var m := TellOthers(w, role, n - 1, cs);
      if n - 1 == leader {
        r := m;
        assert Below(n, leader) == Below(n - 1, leader);
      } else {
        r := TellOne(w, m, role, Below(n - 1, leader), n - 1, cs);
        assert Below(n, leader) == Below(n - 1, leader) + {n - 1};
      }
    }
  }

  lemma ToldNothing(w: World, role: Role, cs: set<Certificate>)
    requires WellFormedWorld(w)
    ensures ToldFrom(w, w, role, {}, cs)
  {
    hide Free, Firm;
  }

  /** An application whose units can all publish `cs` can bring them into its trust, the leader last. */
  lemma TellAll(w: World, role: Role, cs: set<Certificate>) returns (r: World)
    requires WellFormedWorld(w) && WellFormedApp(w.Of(role)) && Base(w)
    requires AllAble(role, w.Of(role), w.Of(role.Other()).bag, cs)
    ensures WellFormedWorld(r) && Base(r) && Reach(w, r) && WellFormed(r.Of(role).bag)
    ensures ToldFrom(w, r, role, Indices(|w.Of(role).locals|), cs) && cs <= r.Of(role).bag.trust
    ensures w.Of(role).bag.leader < |w.Of(role).bag.units|
    ensures Free(role, w.Of(role).bag.units[w.Of(role).bag.leader], w.Of(role.Other()).bag) ==>
              r.Of(role).bag.rotating == AnyRotating(r.Of(role).bag.units)
  {
    hide Base, Reach, WellFormedApp, Free, Firm, ToldFrom, Within, Able, CanRefresh, AnyRotating, Fresh;
    Sized(w, role);
    var n, leader := |w.Of(role).locals|, w.Of(role).bag.leader;
    var m := TellOthers(w, role, n, cs);
    r := TellOne(w, m, role, Below(n, leader), leader, cs);
    assert Below(n, leader) + {leader} == Indices(n);
    TrustFromTold(w, r, role, cs);
  }

  lemma TrustFromTold(w: World, r: World, role: Role, cs: set<Certificate>)
    requires WellFormedWorld(w) && WellFormedWorld(r) && WellFormed(r.Of(role).bag) && Fresh(r.Of(role).bag)
    requires ToldFrom(w, r, role, Indices(|w.Of(role).locals|), cs)
    ensures cs <= r.Of(role).bag.trust
  {
    hide Free, Firm, TrustedByAll;
    forall c | c in cs ensures c in r.Of(role).bag.trust { TrustedByAllMeans(r.Of(role).bag.units, c); }
  }
}
