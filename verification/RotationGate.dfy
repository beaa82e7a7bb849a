/** The gate in the presence of two rotations: what an application has published of the other one's new CA
    stays on its disks, stays loaded and stays published, so that an open gate means loaded trust now. */
module RotationGate {
  import opened Truststore
  import opened Rotation
  import opened RotationSafety
  import opened RotationCleanup
  import opened RotationDrops

  function Before(g: Generation): set<Certificate> { Members(g.before) }

  function After(g: Generation): set<Certificate> { Members(g.after) }

  // ---- What a step does to the stores of its unit ----

  /** The certificates `cs` stay on disk, and what gets loaded is what is on disk. */
  ghost predicate KeepsStores(l: Local, r: Local, cs: set<Certificate>) {
    && (forall c | c in cs && c in l.disk.trust.Values :: c in r.disk.trust.Values)
    && (r.loadedTrust == l.loadedTrust || (r.loadedTrust == l.disk.trust && r.disk == l.disk))
  }

  /** What a rebuild at a unit must not be asked to drop. */
  ghost predicate Covered(cs: set<Certificate>, t: Trust, bundle: seq<Certificate>, ca: seq<Certificate>) {
    forall c | c in cs && c in t.Values :: c in bundle || c in ca
  }

  lemma PassLocalShape(role: Role, l: Local, us: AppBag, them: AppBag, me: nat, properties: bool, now: nat)
    requires WellFormed(us) && me < |us.units| && them.ca != []
    ensures var r := PassLocal(role, l, us, them, me, properties, now);
            && r == l.(disk := PeerPass(l.disk, them.ca, now), pending := r.pending)
            && (r.pending ==>
                 l.pending || !us.units[me].rotate || GateOpen(us.units[me], them) ||
                 Exempt(role, PublishTrust(l, us, me, false), them))
  {
    hide PeerPass, AnyRotating, PublishTrust;
    PublishKeeps(l, us, me, false);
  }

  lemma PassBagShape(role: Role, l: Local, us: AppBag, them: AppBag, me: nat)
    requires WellFormed(us) && me < |us.units| && them.ca != []
    ensures var r := PassBag(role, l, us, them, me);
            && (!r.units[me].rotate ==>
                 !us.units[me].rotate || GateOpen(us.units[me], them) ||
                 Exempt(role, PublishTrust(l, us, me, false), them))
            && (r.ca == us.ca || r.ca == us.units[me].bundle)
            && (r.rotating == us.rotating || r.rotating == AnyRotating(r.units))
  {
    hide AnyRotating, PublishTrust, Exempt;
    PublishKeeps(l, us, me, false);
  }

  lemma StepStores(
      g: Generation, r: Generation, s: Step, l: Local, us: AppBag, them: AppBag, ra: bool, clock: nat,
      cs: set<Certificate>)
    requires Ready(g, r, s, l, us, them, ra, clock) && !s.CertificateStep? && !s.BrokenStep?
    requires forall c | c in cs :: c.Authority?
    requires s.StatusStep? ==>
               var pass := ConfigStep(s.role, s.me, s.properties);
               var passed, told := LocalAfter(pass, l, us, them, clock + 1), BagAfter(pass, l, us, them);
               CleanupDue(passed, told, them, s.me) ==> Covered(cs, passed.disk.trust, told.units[s.me].bundle, them.ca)
    ensures KeepsStores(l, LocalAfter(s, l, us, them, clock + 1), cs)
  {
    hide LocalAfter, BagOk, GoodGeneration, Apart, Offer, Stored, IsAfter, IsBefore, News, Coherent, CleanupDue,
      BagAfter, Covered, KeepsStores;
    OfferNonempty(r, them.ca, ra);
    PassLosesNoAuthority(g, r, us.units[s.me].bundle, l.disk, them.ca, ra, clock + 1);
    ReadyFiles(g, r, s, l, us, them, ra, clock);
    if s.ConfigStep? {
      PassStores(s, l, us, them, clock + 1, cs);
    } else if s.StatusStep? {
      StatusStores(s, l, us, them, clock + 1, cs);
    } else {
      OtherStores(s, l, us, them, clock + 1, cs);
    }
  }

  lemma ReadyFiles(g: Generation, r: Generation, s: Step, l: Local, us: AppBag, them: AppBag, ra: bool, clock: nat)
    requires Ready(g, r, s, l, us, them, ra, clock)
    ensures FilesHold(l.disk.files, us.units[s.me].bundle)
  {
    hide BagOk, GoodGeneration, Apart, Offer, Stored, IsAfter, IsBefore, News, Timed, FilesHold;
  }

  lemma PassStores(s: Step, l: Local, us: AppBag, them: AppBag, now: nat, cs: set<Certificate>)
    requires s.ConfigStep? && Fits(s, us) && them.ca != []
    requires forall c | c in cs && c in l.disk.trust.Values :: c in PeerPass(l.disk, them.ca, now).trust.Values
    ensures KeepsStores(l, LocalAfter(s, l, us, them, now), cs)
    ensures LocalAfter(s, l, us, them, now).disk == PeerPass(l.disk, them.ca, now)
    ensures LocalAfter(s, l, us, them, now).loadedTrust == l.loadedTrust
  {
    hide PeerPass, PassLocal, GateOpen, Exempt, PublishTrust;
    PassLocalShape(s.role, l, us, them, s.me, s.properties, now);
  }

  lemma OtherStores(s: Step, l: Local, us: AppBag, them: AppBag, now: nat, cs: set<Certificate>)
    requires (s.RestartStep? || s.OfferStep? || s.ElectStep?) && Fits(s, us)
    ensures KeepsStores(l, LocalAfter(s, l, us, them, now), cs)
  {
  }

  lemma StatusStores(s: Step, l: Local, us: AppBag, them: AppBag, now: nat, cs: set<Certificate>)
    requires s.StatusStep? && Fits(s, us) && them.ca != [] && FilesHold(l.disk.files, us.units[s.me].bundle)
    requires forall c | c in cs && c in l.disk.trust.Values :: c in PeerPass(l.disk, them.ca, now).trust.Values
    requires var pass := ConfigStep(s.role, s.me, s.properties);
             var passed, told := LocalAfter(pass, l, us, them, now), BagAfter(pass, l, us, them);
             CleanupDue(passed, told, them, s.me) ==> Covered(cs, passed.disk.trust, told.units[s.me].bundle, them.ca)
    ensures KeepsStores(l, LocalAfter(s, l, us, them, now), cs)
  {
    hide LocalAfter, BagAfter, PeerPass, CleanupDue, Rebuild, FilesHold, OwnFiled, PeersFiled;
    var pass := ConfigStep(s.role, s.me, s.properties);
    var passed, told := LocalAfter(pass, l, us, them, now), BagAfter(pass, l, us, them);
    PassStores(pass, l, us, them, now, cs);
    StatusShape(s, l, us, them, now);
    PassFiles(l.disk, them.ca, us.units[s.me].bundle, now);
    RebuildExact(passed.disk, us.units[s.me].bundle, them.ca, now);
  }

  lemma OfferNonempty(r: Generation, ca: seq<Certificate>, ra: bool)
    requires Offer(r, ca, ra)
    ensures ca != []
  {
  }

  lemma AuthoritiesOf(g: Generation, bundle: seq<Certificate>)
    requires GoodGeneration(g)
    ensures IsBefore(g, bundle) ==> Authorities(bundle) == Before(g) && Before(g) <= Members(bundle)
    ensures IsAfter(g, bundle) ==> Authorities(bundle) == After(g) && After(g) <= Members(bundle)
  {
    forall c | IsBefore(g, bundle) || IsAfter(g, bundle)
      ensures c in Authorities(bundle) <==>
              (c in g.before && IsBefore(g, bundle)) || (c in g.after && IsAfter(g, bundle))
    {
      BundleHolds(g, bundle, c);
    }
  }

  lemma CertificateStores(b: UnitBag, them: AppBag, bundle: seq<Certificate>, now: nat)
    requires |bundle| >= 2 && |b.bundle| >= 2
    ensures Members(them.ca) <= CertificateDisk(b, them, bundle, now).trust.Values
  {
    hide Install, Members;
    InstallTrusts(bundle, them.ca, if bundle[1] != b.bundle[1] then b.bundle else [], now);
  }

  lemma BrokenStores(b: UnitBag, them: AppBag, bundle: seq<Certificate>, now: nat)
    requires |bundle| >= 2
    ensures Members(them.ca) <= BrokenDisk(b, them, bundle, now).trust.Values
  {
    hide Install, Members;
    InstallTrusts(bundle, them.ca, b.bundle, now);
  }

  lemma BeforeAuthorities(g: Generation)
    requires GoodGeneration(g)
    ensures forall c | c in Before(g) || c in After(g) :: c.Authority?
  {
  }

  // ---- What is covered and what is published ----

  /** A rebuild keeps the remote CA certificates of the second generation, and those of the first too while
      they are on offer. */
  lemma RemoteCovered(
      g: Generation, r: Generation, l: Local, b: UnitBag, them: AppBag, ra: bool, clock: nat, moved: bool)
    requires GoodGeneration(g) && GoodGeneration(r) && Apart(g, r) && Apart(r, g) && Offer(g, them.ca, ra)
    requires ra ==> IsAfter(g, them.ca)
    requires UnitOk(r, g, l, b, ra, clock)
    requires IsAfter(g, them.ca) ==> moved
    ensures Covered(if moved then After(g) else After(g) + Before(g), l.disk.trust, b.bundle, them.ca)
  {
    hide IsBefore, IsAfter, GoodGeneration, Apart, Stored, Coherent;
    AuthoritiesOf(g, them.ca);
    forall c | c in After(g) + Before(g) && c in l.disk.trust.Values && !(moved && c !in After(g))
      ensures c in them.ca
    {
      if ra {
      } else if c !in Before(g) {
        RemoteNewsMeansOffered(r, g, b.bundle, l.disk.trust, ra, c);
      }
    }
  }

  /** The remote CA stays where the application has published it. */
  lemma TrustStep(
      g: Generation, r: Generation, s: Step, l: Local, us: AppBag, them: AppBag, ra: bool, clock: nat)
    requires Ready(r, g, s, l, us, them, ra, clock)
    requires forall i: nat | i < |us.units| :: After(g) * us.trust <= us.units[i].published
    requires After(g) * us.units[s.me].published <= l.disk.trust.Values
    ensures var told := BagAfter(s, l, us, them);
            && (forall i: nat | i < |told.units| :: After(g) * told.trust <= told.units[i].published)
            && (After(g) <= us.trust ==> After(g) <= told.trust)
  {
    hide BagAfter, LocalAfter, BagOk, GoodGeneration, Apart, Stored, IsAfter, IsBefore, News, FilesHold, After,
      TrustedByAll, Offer;
    var told := BagAfter(s, l, us, them);
    StepPublishes(s, l, us, them, clock);
    PublishesStore(s, l, us, them, clock);
    OthersPublish(s, l, us, them);
    forall i: nat, c | i < |told.units| && c in After(g) * told.trust ensures c in told.units[i].published {
      TrustedByAllMeans(told.units, c);
    }
    if After(g) <= us.trust {
      forall c | c in After(g) ensures c in told.trust { TrustedByAllMeans(told.units, c); }
    }
  }

  lemma OthersPublish(s: Step, l: Local, us: AppBag, them: AppBag)
    requires Fits(s, us)
    ensures forall i: nat | i < |us.units| &&
            i != s.me :: BagAfter(s, l, us, them).units[i].published == us.units[i].published
  {
    hide BagAfter;
    StepBundles(s, l, us, them);
  }

  lemma PlanParts(p: Plan, mover: Role)
    requires GoodPlan(p)
    ensures GoodGeneration(p.Of(mover)) && GoodGeneration(p.Of(mover.Other()))
  {
  }

  // ---- The invariant ----

  /** What the unit has published of `cs` is on its disk and loaded, what it has loaded of them is on its
      disk, and what its application trusts of them the unit has published. */
  ghost predicate UnitTells(cs: set<Certificate>, l: Local, b: UnitBag, trust: set<Certificate>) {
    && cs * b.published <= l.disk.trust.Values && cs * b.published <= l.loadedTrust.Values
    && cs * l.loadedTrust.Values <= l.disk.trust.Values
    && cs * trust <= b.published
  }

  ghost predicate AppTells(cs: set<Certificate>, app: App)
    requires WellFormedApp(app)
  {
    forall i: nat | i < |app.locals| :: UnitTells(cs, app.locals[i], app.bag.units[i], app.bag.trust)
  }

  /** Each application tells the truth about the other one's second generation. */
  ghost predicate Telling(p: Plan, w: World)
    requires WellFormedWorld(w)
  {
    Safe(p, w) && AppTells(After(p.controller), w.broker) && AppTells(After(p.broker), w.controller)
  }

  lemma TellingAt(p: Plan, w: World, role: Role)
    requires WellFormedWorld(w) && Telling(p, w)
    ensures Safe(p, w) && AppTells(After(p.Of(role.Other())), w.Of(role))
  {
    hide AppTells, WellFormedApp;
  }

  /** A certificate event installs the remote offer afresh, and so loses nothing of the second generation. */
  lemma CertificateKeeps(
      g: Generation, r: Generation, s: Step, l: Local, us: AppBag, them: AppBag, ra: bool, clock: nat)
    requires Ready(g, r, s, l, us, them, ra, clock) && Apart(r, g) && (ra ==> IsAfter(r, them.ca))
    requires (s.CertificateStep? || s.BrokenStep?) && |s.bundle| >= 2
    ensures KeepsStores(l, LocalAfter(s, l, us, them, clock + 1), After(r))
  {
    hide BagAfter, CertificateDisk, BrokenDisk, BagOk, GoodGeneration, Apart, IsAfter, IsBefore, Coherent, Stored,
      Members;
    var b := us.units[s.me];
    if s.CertificateStep? {
      CertificateStores(b, them, s.bundle, clock + 1);
    } else {
      BrokenStores(b, them, s.bundle, clock + 1);
    }
    AuthoritiesOf(r, them.ca);
    forall c | c in After(r) && c in l.disk.trust.Values ensures c in Members(them.ca) {
      if c !in Before(r) { NewsOf(r, c); RemoteNewsMeansOffered(g, r, b.bundle, l.disk.trust, ra, c); }
    }
  }

  lemma NewsOf(g: Generation, c: Certificate)
    ensures c in News(g) <==> c in After(g) && c !in Before(g)
  {
  }

  /** No step takes a certificate of the other application's second generation out of a store. */
  lemma StepKeepsNews(p: Plan, w: World, s: Step)
    requires GoodPlan(p) && WellFormedWorld(w) && Safe(p, w) && Enabled(w, s) && Allowed(p, w, s)
    ensures var app, them := w.Of(s.role), w.Of(s.role.Other()).bag;
            s.me < |app.locals| && Fits(s, app.bag)
            && KeepsStores(app.locals[s.me], LocalAfter(s, app.locals[s.me], app.bag, them, w.clock + 1),
                           After(p.Of(s.role.Other())))
  {
    hide BagAfter, LocalAfter, GoodPlan, Safe, GoodGeneration, Apart, IsAfter, IsBefore, KeepsStores, Covered,
      CleanupDue, WellFormedApp, BagOk, Coherent, Stored, After, Before, GoodBundle, AppOk, Sound;
    var g, r := p.Of(s.role), p.Of(s.role.Other());
    var app, them := w.Of(s.role), w.Of(s.role.Other()).bag;
    var ra := IsAfter(r, them.ca);
    StepForms(w, s);
    SafeReady(p, w, s);
    BeforeAuthorities(r);
    if s.CertificateStep? || s.BrokenStep? {
      CertificateKeeps(g, r, s, app.locals[s.me], app.bag, them, ra, w.clock);
    } else {
      if s.StatusStep? {
        var pass := ConfigStep(s.role, s.me, s.properties);
        StatusPass(g, r, s, app.locals[s.me], app.bag, them, ra, w.clock);
        var passed, told := LocalAfter(pass, app.locals[s.me], app.bag, them, w.clock + 1),
                            BagAfter(pass, app.locals[s.me], app.bag, them);
        RemoteCovered(r, g, passed, told.units[s.me], them, ra, w.clock + 1, true);
      }
      StepStores(g, r, s, app.locals[s.me], app.bag, them, ra, w.clock, After(r));
    }
  }

  /** The facts about a step of either application that the lemmas ask for. */
  lemma SafeReady(p: Plan, w: World, s: Step)
    requires GoodPlan(p) && WellFormedWorld(w) && Safe(p, w) && Enabled(w, s) && Allowed(p, w, s)
    ensures Ready(p.Of(s.role), p.Of(s.role.Other()), s, w.Of(s.role).locals[s.me], w.Of(s.role).bag,
                  w.Of(s.role.Other()).bag, IsAfter(p.Of(s.role.Other()), w.Of(s.role.Other()).bag.ca), w.clock)
    ensures s.RestartStep? ==> w.Of(s.role).locals[s.me].pending
    ensures s.CertificateStep? ==> s.bundle[0] != w.Of(s.role).bag.units[s.me].bundle[0]
    ensures s.CertificateStep? || s.BrokenStep? ==> GoodBundle(s.bundle) && |s.bundle| >= 2
    ensures GoodGeneration(p.Of(s.role)) && GoodGeneration(p.Of(s.role.Other()))
    ensures Apart(p.Of(s.role), p.Of(s.role.Other())) && Apart(p.Of(s.role.Other()), p.Of(s.role))
  {
    StepReady(p, w, OffersNow(p, w), s);
  }

  /** The unit that takes a step goes on telling the truth, and so do the others of its application. */
  lemma UnitTellsStep(
      g: Generation, r: Generation, s: Step, l: Local, us: AppBag, them: AppBag, ra: bool, clock: nat)
    requires Ready(g, r, s, l, us, them, ra, clock)
    requires forall i: nat | i < |us.units| :: After(r) * us.trust <= us.units[i].published
    requires UnitTells(After(r), l, us.units[s.me], us.trust)
    requires KeepsStores(l, LocalAfter(s, l, us, them, clock + 1), After(r))
    ensures var l2, told := LocalAfter(s, l, us, them, clock + 1), BagAfter(s, l, us, them);
            && UnitTells(After(r), l2, told.units[s.me], told.trust)
            && (forall i: nat | i < |told.units| :: After(r) * told.trust <= told.units[i].published)
            && (After(r) <= us.trust ==> After(r) <= told.trust)
  {
    hide BagAfter, LocalAfter, BagOk, GoodGeneration, Apart, Stored, IsAfter, IsBefore, News, FilesHold, After, Offer;
    TrustStep(r, g, s, l, us, them, ra, clock);
    PublishesStore(s, l, us, them, clock);
  }

  lemma StepTelling(p: Plan, w: World, s: Step)
    requires GoodPlan(p) && WellFormedWorld(w) && Telling(p, w) && Enabled(w, s) && Allowed(p, w, s)
    ensures Telling(p, Apply(w, s))
    ensures var cs := After(p.Of(s.role.Other())); cs <= w.Of(s.role).bag.trust ==>
            cs <= Apply(w, s).Of(s.role).bag.trust
  {
    hide BagAfter, LocalAfter, Apply, Enabled, Allowed, GoodPlan, Safe, UnitTells, KeepsStores, After, GoodGeneration,
      Apart, IsAfter, GoodBundle, Ready;
    var g, r := p.Of(s.role), p.Of(s.role.Other());
    var app, after, them := w.Of(s.role), Apply(w, s).Of(s.role), w.Of(s.role.Other()).bag;
    StepForms(w, s);
    TellingAt(p, w, s.role);
    TellingAt(p, w, s.role.Other());
    assert s.role.Other().Other() == s.role;
    StepSafe(p, w, s);
    SafeReady(p, w, s);
    StepKeepsNews(p, w, s);
    StepHere(w, s);
    TrustPublished(After(r), app);
    UnitTellsStep(g, r, s, app.locals[s.me], app.bag, them, IsAfter(r, them.ca), w.clock);
    OthersTell(After(r), app, after, s.me);
    StepElsewhere(w, s, s.role.Other(), 0);
    if s.role.BrokerApp? {} else {}
  }

  lemma TrustPublished(cs: set<Certificate>, app: App)
    requires WellFormedApp(app) && AppTells(cs, app)
    ensures forall i: nat | i < |app.bag.units| :: cs * app.bag.trust <= app.bag.units[i].published
  {
    forall i: nat | i < |app.bag.units| ensures cs * app.bag.trust <= app.bag.units[i].published {
      assert UnitTells(cs, app.locals[i], app.bag.units[i], app.bag.trust);
    }
  }

  lemma OthersTell(cs: set<Certificate>, app: App, after: App, me: nat)
    requires WellFormedApp(app) && WellFormedApp(after) && AppTells(cs, app) && |after.locals| == |app.locals|
    requires me < |app.locals| && UnitTells(cs, after.locals[me], after.bag.units[me], after.bag.trust)
    requires forall i: nat | i < |app.locals| && i != me ::
               after.locals[i] == app.locals[i] && after.bag.units[i] == app.bag.units[i]
    requires forall i: nat | i < |after.bag.units| :: cs * after.bag.trust <= after.bag.units[i].published
    ensures AppTells(cs, after)
  {
    forall i: nat | i < |after.locals| ensures UnitTells(cs, after.locals[i], after.bag.units[i], after.bag.trust) {
      assert UnitTells(cs, app.locals[i], app.bag.units[i], app.bag.trust);
    }
  }

  lemma {:induction false} RunTelling(p: Plan, w: World, steps: seq<Step>)
    requires GoodPlan(p) && WellFormedWorld(w) && Telling(p, w) && Runs(w, steps) && AllowedRun(p, w, steps)
    ensures Telling(p, Run(w, steps))
    decreases |steps|
  {
    if steps != [] {
      var n := |steps| - 1;
      RunTelling(p, w, steps[..n]);
      StepTelling(p, Run(w, steps[..n]), steps[n]);
    }
  }

  lemma RestTells(cs: set<Certificate>, g: Generation, app: App, them: AppBag, clock: nat)
    requires WellFormedApp(app) && RestBag(g, app.bag)
    requires forall i: nat | i < |app.locals| :: RestUnit(g, app.locals[i], app.bag.units[i], them, clock)
    ensures AppTells(cs, app)
  {
    hide Install, IsBefore, TrustedByAll;
    forall i: nat | i < |app.locals| ensures UnitTells(cs, app.locals[i], app.bag.units[i], app.bag.trust) {
      assert RestUnit(g, app.locals[i], app.bag.units[i], them, clock);
      forall c | c in app.bag.trust ensures c in app.bag.units[i].published { TrustedByAllMeans(app.bag.units, c); }
    }
  }

  lemma RestTelling(p: Plan, w: World)
    requires GoodPlan(p) && WellFormedWorld(w) && AtRest(p, w)
    ensures Telling(p, w)
  {
    hide RestUnit, GoodPlan, Safe, RestBag, AppTells, WellFormedApp;
    RestSafe(p, w);
    forall role: Role ensures WellFormedApp(w.Of(role)) && AppTells(After(p.Of(role.Other())), w.Of(role)) {
      Formed(w, role);
      assert RestBag(p.Of(role), w.Of(role).bag);
      RestTells(After(p.Of(role.Other())), p.Of(role), w.Of(role), w.Of(role.Other()).bag, w.clock);
    }
    assert AppTells(After(p.Of(BrokerApp.Other())), w.Of(BrokerApp));
    assert AppTells(After(p.Of(ControllerApp.Other())), w.Of(ControllerApp));
  }

  lemma Formed(w: World, role: Role)
    requires WellFormedWorld(w)
    ensures WellFormedApp(w.Of(role)) && |w.Of(role).locals| == |w.Of(role).bag.units|
  {
  }

  // ---- The gate ----

  /** What an open gate means at every moment of every allowed run, both applications rotating at once or
      not: each remote unit has all CA certificates of the unit's new bundle loaded and published now. */
  lemma GateMeansLoadedNow(p: Plan, w: World, steps: seq<Step>, role: Role, me: nat, v: nat)
    requires GoodPlan(p) && WellFormedWorld(w) && AtRest(p, w) && Runs(w, steps) && AllowedRun(p, w, steps)
    requires me < |Run(w, steps).Of(role).bag.units| && v < |Run(w, steps).Of(role.Other()).locals|
    requires var b, them := Run(w, steps).Of(role).bag.units[me], Run(w, steps).Of(role.Other()).bag;
             IsAfter(p.Of(role), b.bundle) && GateOpen(b, them)
    ensures var b, remote := Run(w, steps).Of(role).bag.units[me], Run(w, steps).Of(role.Other());
            && v < |remote.bag.units|
            && Authorities(b.bundle) <= remote.locals[v].loadedTrust.Values
            && Authorities(b.bundle) <= remote.bag.units[v].published
  {
    hide Run, Runs, AllowedRun, AtRest, GoodPlan, IsAfter, Authorities, After, Safe;
    RestTelling(p, w);
    RunTelling(p, w, steps);
    var end := Run(w, steps);
    TellingAt(p, end, role.Other());
    Formed(end, role.Other());
    assert role.Other().Other() == role;
    PlanParts(p, role);
    AuthoritiesOf(p.Of(role), end.Of(role).bag.units[me].bundle);
    var remote := end.Of(role.Other());
    assert UnitTells(After(p.Of(role)), remote.locals[v], remote.bag.units[v], remote.bag.trust);
  }
}
