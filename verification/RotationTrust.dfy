/** Mutual trust throughout a rotation: while one application changes its CA, every process of either
    application has loaded every CA certificate under which the other application is presenting. */
module RotationTrust {
  import opened Truststore
  import opened Rotation
  import opened RotationSafety
  import opened RotationCleanup
  import opened RotationDrops
  import opened RotationGate

  /** Certificate events come to the moving application only, and to a unit without a queued restart:
      a restart already queued would present the new certificate without asking the gate. */
  ghost predicate OneSided(mover: Role, w: World, s: Step)
    requires WellFormedWorld(w) && Enabled(w, s)
  {
    s.CertificateStep? || s.BrokenStep? ==> s.role == mover && !w.Of(mover).locals[s.me].pending
  }

  ghost predicate OneSidedRun(p: Plan, mover: Role, w: World, steps: seq<Step>)
    requires WellFormedWorld(w) && Runs(w, steps)
    decreases |steps|
  {
    steps == [] || (var n := |steps| - 1;
                    && OneSidedRun(p, mover, w, steps[..n])
                    && OneSided(mover, Run(w, steps[..n]), steps[n])
                    && Allowed(p, Run(w, steps[..n]), steps[n]))
  }

  // ---- The invariant ----

  /** A unit of the moving application (generation `g`); `trust` is what the other side publishes. */
  ghost predicate MoverUnit(g: Generation, r: Generation, l: Local, b: UnitBag, trust: set<Certificate>) {
    && Before(r) <= l.disk.trust.Values && Before(r) <= l.loadedTrust.Values
    && (IsAfter(g, b.bundle) && (!b.rotate || l.pending) ==> After(g) <= trust)
    && (IsAfter(g, l.loadedKey) ==> After(g) <= trust)
  }

  /** A unit of the application that stays (generation `r`); `moved` says that all units of the moving
      application present their new certificates. */
  ghost predicate HostUnit(g: Generation, r: Generation, l: Local, b: UnitBag, moved: bool) {
    && IsBefore(r, b.bundle) && !b.rotate
    && (moved || (Before(g) <= l.disk.trust.Values && Before(g) <= l.loadedTrust.Values))
  }

  ghost predicate HostBag(r: Generation, us: AppBag) {
    !us.rotating && IsBefore(r, us.ca)
  }

  ghost predicate AllMoved(g: Generation, locals: seq<Local>) {
    forall i: nat | i < |locals| :: IsAfter(g, locals[i].loadedKey)
  }

  ghost predicate MoverOk(g: Generation, r: Generation, app: App, trust: set<Certificate>)
    requires WellFormedApp(app)
  {
    forall i: nat | i < |app.locals| :: MoverUnit(g, r, app.locals[i], app.bag.units[i], trust)
  }

  ghost predicate HostOk(g: Generation, r: Generation, app: App, moved: bool)
    requires WellFormedApp(app)
  {
    && HostBag(r, app.bag)
    && forall i: nat | i < |app.locals| :: HostUnit(g, r, app.locals[i], app.bag.units[i], moved)
  }

  ghost predicate Trusting(p: Plan, mover: Role, w: World)
    requires WellFormedWorld(w)
  {
    && Telling(p, w)
    && MoverOk(p.Of(mover), p.Of(mover.Other()), w.Of(mover), w.Of(mover.Other()).bag.trust)
    && HostOk(p.Of(mover), p.Of(mover.Other()), w.Of(mover.Other()), AllMoved(p.Of(mover), w.Of(mover).locals))
  }

  // ---- The moving application ----

  /** A unit of the moving application goes past the gate only when the other side trusts its CA. */
  lemma MoverFlags(g: Generation, r: Generation, s: Step, l: Local, us: AppBag, them: AppBag, ra: bool, clock: nat)
    requires Ready(g, r, s, l, us, them, ra, clock) && !s.CertificateStep? && !s.BrokenStep?
    requires HostBag(r, them) && MoverUnit(g, r, l, us.units[s.me], them.trust)
    requires s.RestartStep? ==> l.pending
    ensures var l2, b2 := LocalAfter(s, l, us, them, clock + 1), BagAfter(s, l, us, them).units[s.me];
            && (IsAfter(g, b2.bundle) && (!b2.rotate || l2.pending) ==> After(g) <= them.trust)
            && (IsAfter(g, l2.loadedKey) ==> After(g) <= them.trust)
  {
    hide LocalAfter, BagAfter, PeerPass, BagOk, GoodGeneration, Apart, Stored, IsAfter, IsBefore, News, Timed,
      FilesHold, Authorities, After, Before, GateOpen;
    AuthoritiesOf(g, us.units[s.me].bundle);
    StepBundles(s, l, us, them);
    OfferNonempty(r, them.ca, ra);
    StepFlags(s, l, us, them, clock + 1);
    GateIs(us.units[s.me], them);
  }

  lemma GateIs(b: UnitBag, them: AppBag)
    ensures GateOpen(b, them) <==> Authorities(b.bundle) <= them.trust
  {
  }

  /** How a hook changes a unit's flag and its queued restart. */
  lemma StepFlags(s: Step, l: Local, us: AppBag, them: AppBag, now: nat)
    requires Fits(s, us) && !s.CertificateStep? && !s.BrokenStep? && them.ca != [] && !them.rotating
    requires s.RestartStep? ==> l.pending
    ensures var b, l2, b2 := us.units[s.me], LocalAfter(s, l, us, them, now), BagAfter(s, l, us, them).units[s.me];
            && (!b2.rotate || l2.pending ==> !b.rotate || l.pending || GateOpen(b, them))
            && (l2.loadedKey == l.loadedKey || (l.pending && l2.loadedKey == l.disk.keystore))
  {
    hide PeerPass, PassBag, PassLocal, PublishTrust, GateOpen, AnyRotating, Rebuild, StatusLocal;
    PublishKeeps(l, us, s.me, true);
    if s.ConfigStep? || s.StatusStep? {
      PassLocalShape(s.role, l, us, them, s.me, s.properties, now);
      PassBagShape(s.role, l, us, them, s.me);
      PassLoadsNothing(s.role, l, us, them, s.me, s.properties, now);
      if s.StatusStep? { StatusFlags(s, l, us, them, now); }
    }
  }

  lemma StatusFlags(s: Step, l: Local, us: AppBag, them: AppBag, now: nat)
    requires s.StatusStep? && Fits(s, us) && them.ca != []
    ensures LocalAfter(s, l, us, them, now).pending ==>
              PassLocal(s.role, l, us, them, s.me, s.properties, now).pending || GateOpen(us.units[s.me], them)
  {
    hide PassLocal, PublishTrust, AnyRotating, Rebuild, HasTemporary, TrustedByAll, PassBag, Authorities;
    PassKeepsBundles(s.role, l, us, them, s.me);
  }

  lemma MoverCertificate(
      g: Generation, r: Generation, s: Step, l: Local, us: AppBag, them: AppBag, ra: bool, clock: nat)
    requires Ready(g, r, s, l, us, them, ra, clock) && (s.CertificateStep? || s.BrokenStep?)
    requires HostBag(r, them) && MoverUnit(g, r, l, us.units[s.me], them.trust) && !l.pending
    requires s.CertificateStep? ==> s.bundle[0] != us.units[s.me].bundle[0]
    requires s.BrokenStep? ==> |s.bundle| >= 2
    ensures MoverUnit(g, r, LocalAfter(s, l, us, them, clock + 1), BagAfter(s, l, us, them).units[s.me], them.trust)
  {
    hide *;
    ReadyOffer(g, r, s, l, us, them, ra, clock);
    CertificateTrust(s, l, us, them, clock + 1);
    MoverArrived(g, r, l, LocalAfter(s, l, us, them, clock + 1), us.units[s.me], BagAfter(s, l, us, them).units[s.me],
      them);
  }

  lemma ReadyOffer(g: Generation, r: Generation, s: Step, l: Local, us: AppBag, them: AppBag, ra: bool, clock: nat)
    requires Ready(g, r, s, l, us, them, ra, clock)
    ensures GoodGeneration(r) && Fits(s, us) && s.me < |us.units|
    ensures IsAfter(g, l.loadedKey) ==> IsAfter(g, us.units[s.me].bundle)
  {
    hide GoodGeneration, IsAfter, IsBefore, Apart, BagOk, Coherent, Stored;
  }

  /** After a certificate event: the remote offer is trusted, and nothing has been loaded yet. */
  lemma CertificateTrust(s: Step, l: Local, us: AppBag, them: AppBag, now: nat)
    requires Fits(s, us) && (s.CertificateStep? || s.BrokenStep?)
    requires s.CertificateStep? ==> s.bundle[0] != us.units[s.me].bundle[0]
    requires s.BrokenStep? ==> |s.bundle| >= 2
    ensures var l2, b2 := LocalAfter(s, l, us, them, now), BagAfter(s, l, us, them).units[s.me];
            && l2 == l.(disk := l2.disk) && Members(them.ca) <= l2.disk.trust.Values && b2.rotate
  {
    hide CertificateDisk, BrokenDisk, Members;
    if s.CertificateStep? {
      CertificateStores(us.units[s.me], them, s.bundle, now);
    } else {
      BrokenStores(us.units[s.me], them, s.bundle, now);
    }
  }

  lemma MoverArrived(g: Generation, r: Generation, l: Local, l2: Local, b: UnitBag, b2: UnitBag, them: AppBag)
    requires GoodGeneration(r) && HostBag(r, them) && MoverUnit(g, r, l, b, them.trust) && !l.pending
    requires l2 == l.(disk := l2.disk) && Members(them.ca) <= l2.disk.trust.Values && b2.rotate
    ensures MoverUnit(g, r, l2, b2, them.trust)
  {
    hide GoodGeneration, IsAfter, IsBefore, Members, Before, After;
    AuthoritiesOf(r, them.ca);
  }

  lemma MoverStep(g: Generation, r: Generation, s: Step, l: Local, us: AppBag, them: AppBag, ra: bool, clock: nat)
    requires Ready(g, r, s, l, us, them, ra, clock) && !s.CertificateStep? && !s.BrokenStep?
    requires HostBag(r, them) && MoverUnit(g, r, l, us.units[s.me], them.trust)
    requires s.RestartStep? ==> l.pending
    ensures MoverUnit(g, r, LocalAfter(s, l, us, them, clock + 1), BagAfter(s, l, us, them).units[s.me], them.trust)
  {
    hide BagAfter, LocalAfter, BagOk, GoodGeneration, Apart, Stored, IsAfter, IsBefore, News, UnitOk, CleanupDue;
    MoverFlags(g, r, s, l, us, them, ra, clock);
    AuthoritiesOf(r, them.ca);
    BeforeAuthorities(r);
    StepStores(g, r, s, l, us, them, ra, clock, Before(r));
  }

  /** Once a process presents the new certificate it goes on presenting it. */
  lemma MovedStays(g: Generation, r: Generation, s: Step, l: Local, us: AppBag, them: AppBag, ra: bool, clock: nat)
    requires Ready(g, r, s, l, us, them, ra, clock) && IsAfter(g, l.loadedKey)
    requires s.CertificateStep? || s.BrokenStep? ==> GoodBundle(s.bundle)
    ensures IsAfter(g, LocalAfter(s, l, us, them, clock + 1).loadedKey)
  {
    hide PassLocal, StatusLocal, BagOk, GoodGeneration, Apart, Stored, IsAfter, IsBefore, News, FilesHold, Timed,
      CertificateDisk, BrokenDisk, Offer;
    if s.ConfigStep? || s.StatusStep? {
      if them.ca != [] { PassLocalShape(s.role, l, us, them, s.me, s.properties, clock + 1); }
      PassLoadsNothing(s.role, l, us, them, s.me, s.properties, clock + 1);
    }
  }

  lemma PassLoadsNothing(role: Role, l: Local, us: AppBag, them: AppBag, me: nat, properties: bool, now: nat)
    requires WellFormed(us) && me < |us.units|
    ensures PassLocal(role, l, us, them, me, properties, now).loadedKey == l.loadedKey
    ensures StatusLocal(role, l, us, them, me, properties, now).loadedKey == l.loadedKey
  {
    hide PeerPass, HeldBack, PublishTrust, CleanupDue, PassBag, Rebuild;
  }

  // ---- The application that stays ----

  /** A step within the staying application leaves its certificates and flags alone. */
  lemma HostBagStep(r: Generation, s: Step, l: Local, us: AppBag, them: AppBag)
    requires Fits(s, us) && !s.CertificateStep? && !s.BrokenStep? && HostBag(r, us)
    requires forall i: nat | i < |us.units| :: IsBefore(r, us.units[i].bundle) && !us.units[i].rotate
    ensures HostBag(r, BagAfter(s, l, us, them))
    ensures forall i: nat | i < |us.units| ::
              var told := BagAfter(s, l, us, them).units[i];
              IsBefore(r, told.bundle) && !told.rotate && (i != s.me ==> told == us.units[i])
  {
    hide PassBag, PublishTrust, IsBefore;
    StepBundles(s, l, us, them);
    PublishKeeps(l, us, s.me, true);
    if s.ConfigStep? || s.StatusStep? {
      if them.ca != [] { PassBagShape(s.role, l, us, them, s.me); }
      PassKeepsBundles(s.role, l, us, them, s.me);
      if them.ca == [] { assert PassBag(s.role, l, us, them, s.me) == us by { PassIdle(s.role, l, us, them, s.me); } }
    }
  }

  lemma PassIdle(role: Role, l: Local, us: AppBag, them: AppBag, me: nat)
    requires WellFormed(us) && me < |us.units| && them.ca == []
    ensures PassBag(role, l, us, them, me) == us
  {
  }

  /** The unit that takes the step at the staying side. */
  lemma HostStep(
      g: Generation, r: Generation, s: Step, l: Local, us: AppBag, them: AppBag, ra: bool, clock: nat, moved: bool)
    requires Ready(r, g, s, l, us, them, ra, clock) && !s.CertificateStep? && !s.BrokenStep? && HostBag(r, us)
    requires forall i: nat | i < |us.units| :: IsBefore(r, us.units[i].bundle) && !us.units[i].rotate
    requires HostUnit(g, r, l, us.units[s.me], moved)
    requires KeepsStores(l, LocalAfter(s, l, us, them, clock + 1), if moved then After(g) else After(g) + Before(g))
    ensures HostUnit(g, r, LocalAfter(s, l, us, them, clock + 1), BagAfter(s, l, us, them).units[s.me], moved)
  {
    hide BagAfter, LocalAfter, BagOk, GoodGeneration, Apart, Stored, IsAfter, IsBefore, News, FilesHold, After,
      Before, Offer;
    HostBagStep(r, s, l, us, them);
  }

  // ---- Whole runs ----

  lemma MoverWorld(p: Plan, mover: Role, w: World, s: Step)
    requires GoodPlan(p) && WellFormedWorld(w) && Trusting(p, mover, w)
    requires Enabled(w, s) && Allowed(p, w, s) && OneSided(mover, w, s) && s.role == mover
    ensures MoverOk(p.Of(mover), p.Of(mover.Other()), Apply(w, s).Of(mover), w.Of(mover.Other()).bag.trust)
    ensures AllMoved(p.Of(mover), w.Of(mover).locals) ==> AllMoved(p.Of(mover), Apply(w, s).Of(mover).locals)
  {
    hide BagAfter, LocalAfter, Apply, Enabled, Allowed, Ready, GoodPlan, Safe, MoverUnit, HostUnit, GoodGeneration,
      Apart, IsAfter, HostBag, GoodBundle;
    var g, r := p.Of(mover), p.Of(mover.Other());
    var app, after, them := w.Of(mover), Apply(w, s).Of(mover), w.Of(mover.Other()).bag;
    StepForms(w, s);
    SafeReady(p, w, s);
    StepHere(w, s);
    if s.CertificateStep? || s.BrokenStep? {
      MoverCertificate(g, r, s, app.locals[s.me], app.bag, them, IsAfter(r, them.ca), w.clock);
    } else {
      MoverStep(g, r, s, app.locals[s.me], app.bag, them, IsAfter(r, them.ca), w.clock);
    }
    if AllMoved(g, app.locals) {
      MovedStays(g, r, s, app.locals[s.me], app.bag, them, IsAfter(r, them.ca), w.clock);
    }
  }

  /** When a unit of the staying side may clean up while the new CA is on offer, all have moved. */
  lemma CleanupAfterMove(
      g: Generation, r: Generation, app: App, us: AppBag, told: AppBag, me: nat, l: Local, ra: bool, clock: nat)
    requires GoodGeneration(g) && WellFormedApp(app) && AppOk(g, r, app, us, ra, clock)
    requires me < |told.units| && CleanupDue(l, told, app.bag, me) && IsAfter(g, app.bag.ca)
    ensures AllMoved(g, app.locals)
  {
    hide BagOk, IsAfter, GoodGeneration, BothTrust, HasTemporary, Coherent, Stored, News;
    forall i: nat | i < |app.locals| ensures IsAfter(g, app.locals[i].loadedKey) {
      RemoteSideMovedOn(g, told, app.bag, me, i, app.locals[i]);
    }
  }

  lemma HostStores(p: Plan, mover: Role, w: World, s: Step)
    requires GoodPlan(p) && WellFormedWorld(w) && Safe(p, w)
    requires Enabled(w, s) && Allowed(p, w, s) && OneSided(mover, w, s) && s.role == mover.Other()
    ensures var g, app, them := p.Of(mover), w.Of(s.role), w.Of(mover);
            KeepsStores(app.locals[s.me], LocalAfter(s, app.locals[s.me], app.bag, them.bag, w.clock + 1),
                        if AllMoved(g, them.locals) then After(g) else After(g) + Before(g))
  {
    hide BagAfter, LocalAfter, Enabled, Allowed, GoodPlan, Safe, GoodGeneration, Apart, IsAfter, IsBefore,
      KeepsStores, Covered, AppOk, CleanupDue, WellFormedApp, WellFormed, AllMoved, BagOk, Coherent, Stored, After,
      Before;
    var g, r := p.Of(mover), p.Of(s.role);
    var app, them := w.Of(s.role), w.Of(mover);
    assert s.role.Other() == mover;
    StepForms(w, s);
    SafeReady(p, w, s);
    SafeAt(p, w, mover);
    BeforeAuthorities(g);
    var moved := AllMoved(g, them.locals);
    var cs := if moved then After(g) else After(g) + Before(g);
    if s.StatusStep? {
      var pass := ConfigStep(s.role, s.me, s.properties);
      StatusPass(r, g, s, app.locals[s.me], app.bag, them.bag, IsAfter(g, them.bag.ca), w.clock);
      var passed, told := LocalAfter(pass, app.locals[s.me], app.bag, them.bag, w.clock + 1),
        BagAfter(pass, app.locals[s.me], app.bag, them.bag);
      if CleanupDue(passed, told, them.bag, s.me) {
        if IsAfter(g, them.bag.ca) {
          CleanupAfterMove(g, r, them, app.bag, told, s.me, passed, IsAfter(r, app.bag.ca), w.clock);
        }
        RemoteCovered(g, r, passed, told.units[s.me], them.bag, IsAfter(g, them.bag.ca), w.clock + 1, moved);
      }
    }
    StepStores(r, g, s, app.locals[s.me], app.bag, them.bag, IsAfter(g, them.bag.ca), w.clock, cs);
  }

  lemma HostWorld(p: Plan, mover: Role, w: World, s: Step)
    requires GoodPlan(p) && WellFormedWorld(w) && Trusting(p, mover, w)
    requires Enabled(w, s) && Allowed(p, w, s) && OneSided(mover, w, s) && s.role == mover.Other()
    ensures HostOk(p.Of(mover), p.Of(s.role), Apply(w, s).Of(s.role), AllMoved(p.Of(mover), w.Of(mover).locals))
  {
    hide BagAfter, LocalAfter, Apply, Enabled, Allowed, Ready, GoodPlan, Safe, MoverOk, GoodGeneration, Apart,
      IsAfter, IsBefore, HostBag, AllMoved, GoodBundle, After, Before, KeepsStores;
    var g, r := p.Of(mover), p.Of(s.role);
    var app, after, them := w.Of(s.role), Apply(w, s).Of(s.role), w.Of(mover).bag;
    assert s.role.Other() == mover;
    StepForms(w, s);
    SafeReady(p, w, s);
    StepHere(w, s);
    HostStores(p, mover, w, s);
    HostBagStep(r, s, app.locals[s.me], app.bag, them);
    HostStep(g, r, s, app.locals[s.me], app.bag, them, IsAfter(g, them.ca), w.clock, AllMoved(g, w.Of(mover).locals));
  }

  lemma HostMoved(g: Generation, r: Generation, app: App, moved: bool, later: bool)
    requires WellFormedApp(app) && HostOk(g, r, app, moved) && (moved ==> later)
    ensures HostOk(g, r, app, later)
  {
    hide After, Before, IsBefore;
  }

  lemma MoverTold(g: Generation, r: Generation, app: App, trust: set<Certificate>, later: set<Certificate>)
    requires WellFormedApp(app) && MoverOk(g, r, app, trust) && (After(g) <= trust ==> After(g) <= later)
    ensures MoverOk(g, r, app, later)
  {
    hide After, Before, IsAfter;
  }

  lemma StepTrusting(p: Plan, mover: Role, w: World, s: Step)
    requires GoodPlan(p) && WellFormedWorld(w) && Trusting(p, mover, w)
    requires Enabled(w, s) && Allowed(p, w, s) && OneSided(mover, w, s)
    ensures Trusting(p, mover, Apply(w, s))
  {
    hide BagAfter, LocalAfter, Apply, Enabled, Allowed, GoodPlan, Safe, IsAfter, HostBag, GoodBundle, After, Before,
      WellFormedApp, AllMoved;
    var g, r := p.Of(mover), p.Of(mover.Other());
    StepTelling(p, w, s);
    StepElsewhere(w, s, s.role.Other(), 0);
    var after := Apply(w, s);
    if s.role == mover {
      MoverWorld(p, mover, w, s);
      assert after.Of(mover.Other()) == w.Of(mover.Other());
      HostMoved(g, r, w.Of(mover.Other()), AllMoved(g, w.Of(mover).locals), AllMoved(g, after.Of(mover).locals));
    } else {
      assert s.role == mover.Other();
      HostWorld(p, mover, w, s);
      assert after.Of(mover) == w.Of(mover);
      MoverTold(g, r, w.Of(mover), w.Of(s.role).bag.trust, after.Of(s.role).bag.trust);
    }
  }

  lemma {:induction false} RunTrusting(p: Plan, mover: Role, w: World, steps: seq<Step>)
    requires GoodPlan(p) && WellFormedWorld(w) && Trusting(p, mover, w) && Runs(w, steps) &&
             OneSidedRun(p, mover, w, steps)
    ensures Trusting(p, mover, Run(w, steps))
    decreases |steps|
  {
    if steps != [] {
      var n := |steps| - 1;
      RunTrusting(p, mover, w, steps[..n]);
      StepTrusting(p, mover, Run(w, steps[..n]), steps[n]);
    }
  }

  lemma RestUnitTrusts(g: Generation, r: Generation, l: Local, b: UnitBag, them: AppBag, clock: nat)
    requires GoodGeneration(g) && GoodGeneration(r) && RestUnit(g, l, b, them, clock) && IsBefore(r, them.ca)
    ensures Before(r) <= l.disk.trust.Values && l.loadedTrust == l.disk.trust && b.published == l.disk.trust.Values
    ensures IsBefore(g, b.bundle) && l.loadedKey == b.bundle && !b.rotate && !IsAfter(g, b.bundle)
  {
    hide Install, GoodGeneration, IsBefore, IsAfter;
    GenerationsDiffer(g, b.bundle);
    assert b.bundle != [] by { RestPresents(g, l, b, them, clock); }
    InstallExact(b.bundle, them.ca, [], l.disk.modified);
    AuthoritiesOf(r, them.ca);
  }

  lemma RestPresents(g: Generation, l: Local, b: UnitBag, them: AppBag, clock: nat)
    requires RestUnit(g, l, b, them, clock)
    ensures b.bundle != []
  {
    hide Install;
  }

  lemma RestTrusting(p: Plan, mover: Role, w: World)
    requires GoodPlan(p) && WellFormedWorld(w) && AtRest(p, w)
    ensures Trusting(p, mover, w)
  {
    hide RestUnit, GoodPlan, GoodGeneration, Safe, IsAfter, IsBefore, TrustedByAll, Before, After;
    RestTelling(p, w);
    var g, r := p.Of(mover), p.Of(mover.Other());
    assert mover.Other().Other() == mover;
    assert RestBag(g, w.Of(mover).bag) && RestBag(r, w.Of(mover.Other()).bag);
    assert GoodGeneration(g) && GoodGeneration(r) by { PlanParts(p, mover); }
    forall i: nat | i < |w.Of(mover).locals|
      ensures MoverUnit(g, r, w.Of(mover).locals[i], w.Of(mover).bag.units[i], w.Of(mover.Other()).bag.trust)
    {
      RestUnitTrusts(g, r, w.Of(mover).locals[i], w.Of(mover).bag.units[i], w.Of(mover.Other()).bag, w.clock);
    }
    var host := w.Of(mover.Other());
    forall i: nat | i < |host.locals|
      ensures HostUnit(g, r, host.locals[i], host.bag.units[i], AllMoved(g, w.Of(mover).locals))
    {
      RestUnitTrusts(r, g, host.locals[i], host.bag.units[i], w.Of(mover).bag, w.clock);
    }
  }

  /** What the two processes need to accept each other's certificates. */
  ghost predicate TrustEachOther(a: Local, b: Local) {
    Authorities(a.loadedKey) <= b.loadedTrust.Values && Authorities(b.loadedKey) <= a.loadedTrust.Values
  }

  lemma TrustingMeans(p: Plan, mover: Role, w: World, u: nat, v: nat)
    requires GoodPlan(p) && WellFormedWorld(w) && Trusting(p, mover, w)
    requires u < |w.Of(mover).locals| && v < |w.Of(mover.Other()).locals|
    ensures TrustEachOther(w.Of(mover).locals[u], w.Of(mover.Other()).locals[v])
  {
    var g, r := p.Of(mover), p.Of(mover.Other());
    var mine, theirs := w.Of(mover), w.Of(mover.Other());
    hide GoodPlan, GoodGeneration, Safe, IsAfter, IsBefore, Before, After, Authorities, AppOk;
    assert mover.Other().Other() == mover;
    PlanParts(p, mover);
    TellingAt(p, w, mover.Other());
    SafeAt(p, w, mover);
    SafeAt(p, w, mover.Other());
    LoadedGeneration(g, r, mine, theirs.bag, u, IsAfter(r, theirs.bag.ca), w.clock);
    LoadedGeneration(r, g, theirs, mine.bag, v, IsAfter(g, mine.bag.ca), w.clock);
    assert MoverUnit(g, r, mine.locals[u], mine.bag.units[u], theirs.bag.trust);
    assert HostUnit(g, r, theirs.locals[v], theirs.bag.units[v], AllMoved(g, mine.locals));
    assert UnitTells(After(g), theirs.locals[v], theirs.bag.units[v], theirs.bag.trust);
    assert !IsAfter(r, theirs.bag.units[v].bundle) by { GenerationsDiffer(r, theirs.bag.units[v].bundle); }
    AuthoritiesOf(g, mine.locals[u].loadedKey);
    AuthoritiesOf(r, theirs.locals[v].loadedKey);
  }

  lemma LoadedGeneration(g: Generation, r: Generation, app: App, them: AppBag, u: nat, ra: bool, clock: nat)
    requires WellFormedApp(app) && AppOk(g, r, app, them, ra, clock) && u < |app.locals|
    ensures IsBefore(g, app.locals[u].loadedKey) || IsAfter(g, app.locals[u].loadedKey)
    ensures IsAfter(g, app.locals[u].loadedKey) ==> IsAfter(g, app.bag.units[u].bundle)
    ensures GoodGeneration(g) ==> !(IsBefore(g, app.locals[u].loadedKey) && IsAfter(g, app.locals[u].loadedKey))
  {
    hide IsBefore, IsAfter, Coherent, BagOk, GoodGeneration, OwnFiled;
    assert UnitOk(g, r, app.locals[u], app.bag.units[u], ra, clock);
    if GoodGeneration(g) { GenerationsDiffer(g, app.locals[u].loadedKey); }
  }

  /** Rotation without an outage: in every run from rest in which one application replaces its CA while
      the other keeps its own, at every moment each process of either application has loaded every CA
      certificate under which each process of the other one is presenting. */
  lemma NoUnitLosesTrust(p: Plan, mover: Role, w: World, steps: seq<Step>, u: nat, v: nat)
    requires GoodPlan(p) && WellFormedWorld(w) && AtRest(p, w) && Runs(w, steps) && OneSidedRun(p, mover, w, steps)
    requires u < |Run(w, steps).Of(mover).locals| && v < |Run(w, steps).Of(mover.Other()).locals|
    ensures TrustEachOther(Run(w, steps).Of(mover).locals[u], Run(w, steps).Of(mover.Other()).locals[v])
  {
    hide Run, Runs, OneSidedRun, Trusting, AtRest, TrustEachOther, GoodPlan;
    RestTrusting(p, mover, w);
    RunTrusting(p, mover, w, steps);
    TrustingMeans(p, mover, Run(w, steps), u, v);
  }

  // ---- Exactly when trust breaks ----

  /** Every process of either application has loaded what every process of the other one presents. */
  ghost predicate AllTrust(w: World)
    requires WellFormedWorld(w)
  {
    forall u: nat, v: nat | u < |w.broker.locals| && v < |w.controller.locals| ::
      TrustEachOther(w.broker.locals[u], w.controller.locals[v])
  }

  /** A restart that goes ahead too early: the unit will present its new CA to a remote process that has not
      loaded it, or will load a store that lacks the old CA under which a remote process still presents. */
  ghost predicate Hasty(p: Plan, w: World, s: Step)
    requires WellFormedWorld(w)
  {
    var g, r, app, remote := p.Of(s.role), p.Of(s.role.Other()), w.Of(s.role), w.Of(s.role.Other());
    && s.RestartStep? && s.me < |app.locals|
    && exists v: nat :: v < |remote.locals| && Fails(g, r, app.locals[s.me], app.bag.units[s.me], remote.locals[v])
  }

  ghost predicate Fails(g: Generation, r: Generation, l: Local, b: UnitBag, x: Local) {
    || (IsAfter(g, b.bundle) && !(After(g) <= x.loadedTrust.Values))
    || (IsBefore(r, x.loadedKey) && !(Before(r) <= l.disk.trust.Values))
  }

  lemma TrustBothWays(a: Local, b: Local)
    ensures TrustEachOther(a, b) <==> TrustEachOther(b, a)
  {
  }

  lemma AllTrustFrom(w: World, role: Role, u: nat, v: nat)
    requires WellFormedWorld(w) && AllTrust(w) && u < |w.Of(role).locals| && v < |w.Of(role.Other()).locals|
    ensures TrustEachOther(w.Of(role).locals[u], w.Of(role.Other()).locals[v])
  {
    hide TrustEachOther, WellFormedApp;
    if role.ControllerApp? { TrustBothWays(w.Of(role.Other()).locals[v], w.Of(role).locals[u]); }
  }

  lemma AllTrustTo(w: World, role: Role)
    requires WellFormedWorld(w)
    requires forall u: nat, v: nat | u < |w.Of(role).locals| && v < |w.Of(role.Other()).locals| ::
               TrustEachOther(w.Of(role).locals[u], w.Of(role.Other()).locals[v])
    ensures AllTrust(w)
  {
    hide TrustEachOther, WellFormedApp;
    forall u: nat, v: nat | u < |w.broker.locals| && v < |w.controller.locals|
      ensures TrustEachOther(w.broker.locals[u], w.controller.locals[v])
    {
      if role.ControllerApp? {
        assert TrustEachOther(w.Of(role).locals[v], w.Of(role.Other()).locals[u]);
        TrustBothWays(w.controller.locals[v], w.broker.locals[u]);
      } else {
        assert TrustEachOther(w.Of(role).locals[u], w.Of(role.Other()).locals[v]);
      }
    }
  }

  /** A restarted process and a remote one: they trust each other exactly when the restart was not hasty. */
  lemma RestartTrust(g: Generation, r: Generation, l: Local, b: UnitBag, x: Local, ra: bool, clock: nat, l2: Local)
    requires GoodGeneration(g) && GoodGeneration(r) && UnitOk(g, r, l, b, ra, clock)
    requires IsBefore(r, x.loadedKey) || IsAfter(r, x.loadedKey)
    requires After(r) * l.loadedTrust.Values <= l.disk.trust.Values && TrustEachOther(l, x)
    requires l2.loadedTrust == l.disk.trust && l2.loadedKey == l.disk.keystore
    ensures TrustEachOther(l2, x) <==> !Fails(g, r, l, b, x)
  {
    hide GoodGeneration, Timed, FilesHold, OwnFiled, Before, After, Authorities, News;
    GenerationsDiffer(g, l.loadedKey);
    GenerationsDiffer(r, x.loadedKey);
    AuthoritiesOf(g, l.loadedKey);
    AuthoritiesOf(g, b.bundle);
    AuthoritiesOf(r, x.loadedKey);
  }

  /** Nothing but a restart changes what a process has loaded. */
  lemma OnlyRestartsLoad(s: Step, l: Local, us: AppBag, them: AppBag, now: nat)
    requires Fits(s, us)
    ensures var l2 := LocalAfter(s, l, us, them, now);
            if s.RestartStep? then l2.loadedTrust == l.disk.trust && l2.loadedKey == l.disk.keystore
            else l2.loadedTrust == l.loadedTrust && l2.loadedKey == l.loadedKey
  {
    hide PeerPass, HeldBack, PublishTrust, CleanupDue, PassBag, Rebuild, CertificateDisk, BrokenDisk;
  }

  /** The step's unit and a remote process. */
  lemma StepTrust(p: Plan, w: World, s: Step, v: nat)
    requires GoodPlan(p) && WellFormedWorld(w) && Telling(p, w) && Enabled(w, s) && Allowed(p, w, s) && AllTrust(w)
    requires v < |w.Of(s.role.Other()).locals|
    ensures var g, r, app, x := p.Of(s.role), p.Of(s.role.Other()), w.Of(s.role), w.Of(s.role.Other()).locals[v];
            && s.me < |app.locals| && s.me < |Apply(w, s).Of(s.role).locals|
            && (TrustEachOther(Apply(w, s).Of(s.role).locals[s.me], x)
                <==> !(s.RestartStep? && Fails(g, r, app.locals[s.me], app.bag.units[s.me], x)))
  {
    hide BagAfter, LocalAfter, Apply, Enabled, Allowed, GoodPlan, Safe, AllTrust, GoodGeneration, Apart, Sound,
      IsAfter, IsBefore, After, Before, Authorities, Fails, GoodBundle, AppOk, Coherent, Stored, Offer, BagOk;
    var g, r, app, remote := p.Of(s.role), p.Of(s.role.Other()), w.Of(s.role), w.Of(s.role.Other());
    StepForms(w, s);
    StepHere(w, s);
    TellingAt(p, w, s.role);
    SafeReady(p, w, s);
    SafeAt(p, w, s.role.Other());
    assert s.role.Other().Other() == s.role;
    AllTrustFrom(w, s.role, s.me, v);
    LoadedGeneration(r, g, remote, app.bag, v, IsAfter(g, app.bag.ca), w.clock);
    OnlyRestartsLoad(s, app.locals[s.me], app.bag, remote.bag, w.clock + 1);
    assert UnitTells(After(r), app.locals[s.me], app.bag.units[s.me], app.bag.trust);
    if s.RestartStep? {
      RestartTrust(g, r, app.locals[s.me], app.bag.units[s.me], remote.locals[v], IsAfter(r, remote.bag.ca), w.clock,
                   Apply(w, s).Of(s.role).locals[s.me]);
    }
  }

  /** In every allowed run, both applications rotating or not and restarts queued anywhere: from a state
      in which all trust each other, a step breaks trust if and only if it is a hasty restart. */
  lemma TrustBreaksExactly(p: Plan, w: World, steps: seq<Step>, s: Step)
    requires GoodPlan(p) && WellFormedWorld(w) && AtRest(p, w) && Runs(w, steps) && AllowedRun(p, w, steps)
    requires AllTrust(Run(w, steps)) && Enabled(Run(w, steps), s) && Allowed(p, Run(w, steps), s)
    ensures AllTrust(Apply(Run(w, steps), s)) <==> !Hasty(p, Run(w, steps), s)
  {
    hide Run, Runs, AllowedRun, AtRest, GoodPlan, Telling, Apply, Enabled, Allowed, AllTrust, TrustEachOther, Fails,
      WellFormedApp;
    RestTelling(p, w);
    RunTelling(p, w, steps);
    var end := Run(w, steps);
    var after, remote := Apply(end, s), end.Of(s.role.Other());
    StepHere(end, s);
    StepElsewhere(end, s, s.role.Other(), 0);
    forall v: nat | v < |remote.locals|
      ensures s.me < |after.Of(s.role).locals| && s.me < |end.Of(s.role).locals|
      ensures TrustEachOther(after.Of(s.role).locals[s.me], remote.locals[v])
              <==> !(s.RestartStep? && Fails(p.Of(s.role), p.Of(s.role.Other()), end.Of(s.role).locals[s.me],
                                             end.Of(s.role).bag.units[s.me], remote.locals[v]))
    {
      StepTrust(p, end, s, v);
    }
    if Hasty(p, end, s) {
      var v: nat :| v < |remote.locals| && Fails(p.Of(s.role), p.Of(s.role.Other()), end.Of(s.role).locals[s.me],
                                                 end.Of(s.role).bag.units[s.me], remote.locals[v]);
      if AllTrust(after) { AllTrustFrom(after, s.role, s.me, v); }
    } else {
      forall u: nat, v: nat | u < |after.Of(s.role).locals| && v < |remote.locals|
        ensures TrustEachOther(after.Of(s.role).locals[u], remote.locals[v])
      {
        if u != s.me { AllTrustFrom(end, s.role, u, v); }
      }
      AllTrustTo(after, s.role);
    }
  }
}
