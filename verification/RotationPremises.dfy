/** Runs that show why the theorems on rotations have the premises they have.  Leadership passes to a unit that
    has not yet rotated, and the other application drops a CA certificate that is in use; a certificate meets
    a queued restart, or an exempt broker, and is presented before anyone trusts it; and a unit passes the
    open gate with a store that lacks the other side's old CA. */
module RotationPremises {
  import opened Truststore
  import opened Rotation
  import opened RotationSafety
  import opened RotationCleanup
  import opened RotationDrops
  import opened RotationGate
  import opened RotationTrust

  lemma Extend(p: Plan, w: World, steps: seq<Step>, s: Step)
    requires WellFormedWorld(w) && Runs(w, steps) && Enabled(Run(w, steps), s)
    requires MovingRun(p, w, steps) && Moving(p, Run(w, steps), s)
    ensures Runs(w, steps + [s]) && Run(w, steps + [s]) == Apply(Run(w, steps), s)
    ensures MovingRun(p, w, steps + [s])
  {
    hide Apply, Enabled, WellFormedWorld, Moving;
    assert (steps + [s])[..|steps|] == steps;
  }

  /** The setting: both applications at rest, one remote unit, a leader about to get its new certificate
      and another unit of its application that is not. */
  ghost predicate Stage(p: Plan, mover: Role, w: World, k: nat, bundle: seq<Certificate>)
    requires WellFormedWorld(w)
  {
    var us := w.Of(mover).bag;
    && GoodPlan(p) && AtRest(p, w) && |w.Of(mover.Other()).bag.units| == 1
    && k < |us.units| && k != us.leader
    && GoodBundle(bundle) && IsAfter(p.Of(mover), bundle)
    && bundle[0] != us.units[us.leader].bundle[0] && bundle[1] != us.units[us.leader].bundle[1]
    && bundle[1] in News(p.Of(mover))
  }

  /** A unit's store at rest. */
  lemma RestStore(g: Generation, l: Local, b: UnitBag, them: AppBag, clock: nat)
    requires RestUnit(g, l, b, them, clock)
    ensures l.disk.trust.Values == Members(b.bundle) + Members(them.ca)
    ensures OwnFiled(l.disk.trust, b.bundle) && PeersFiled(l.disk.trust, them.ca)
    ensures forall i: nat :: NewClusterTls(i) !in l.disk.trust && OldBundle(i) !in l.disk.trust
    ensures IsBefore(g, b.bundle) && !b.rotate && !l.pending && b.published == l.disk.trust.Values &&
            l.loadedTrust == l.disk.trust
  {
    hide Install, OwnFiled, PeersFiled, Members, IsBefore;
    BundleSome(g, b.bundle);
    FreshStore(b.bundle, them.ca, l.disk.modified);
  }

  lemma FreshStore(bundle: seq<Certificate>, remote: seq<Certificate>, now: nat)
    requires bundle != []
    ensures var t := Install(bundle, remote, [], now).trust;
            && t.Values == Members(bundle) + Members(remote) && OwnFiled(t, bundle) && PeersFiled(t, remote)
            && forall i: nat :: NewClusterTls(i) !in t && OldBundle(i) !in t
  {
    hide Install, OwnFiled, PeersFiled, FilesHold;
    InstallExact(bundle, remote, [], now);
    assert Members(bundle) + Members(remote) + Members([]) == Members(bundle) + Members(remote);
  }

  lemma NotMine(g: Generation, r: Generation, bundle: seq<Certificate>, c: Certificate)
    requires GoodGeneration(g) && Apart(r, g) && IsBefore(r, bundle) && (c in g.before || c in g.after)
    ensures c !in Members(bundle)
  {
    assert c.Authority?;
    hide GoodGeneration;
    if i: nat :| i < |bundle| && bundle[i] == c { OwnNotRemote(r, g, bundle, i); }
  }

  lemma NotBefore(g: Generation, bundle: seq<Certificate>, c: Certificate)
    requires GoodGeneration(g) && IsBefore(g, bundle) && c in News(g)
    ensures c !in Members(bundle)
  {
    assert c.Authority?;
    hide GoodGeneration;
    if i: nat :| i < |bundle| && bundle[i] == c { BeforeAt(g, bundle, i); }
  }

  /** The mover's first CA certificate stands under its own alias. */
  lemma AliasOne(g: Generation, r: Generation, t: Trust, bundle: seq<Certificate>, ca: seq<Certificate>)
    requires GoodGeneration(g) && Apart(r, g) && IsBefore(r, bundle) && IsBefore(g, ca) && GoodBundle(ca)
    requires OwnFiled(t, bundle) && PeersFiled(t, ca) && Members(ca) <= t.Values
    requires forall i: nat :: NewClusterTls(i) !in t && OldBundle(i) !in t
    ensures ClusterTls(1) in t
  {
    assert ca[1] == ca[1..][0] && ca[1] in g.before;
    NotMine(g, r, bundle, ca[1]);
    assert ca[1] in Members(ca);
    assert forall i: nat | i < |bundle| :: bundle[i] in Members(bundle);
    var a :| a in t && t[a] == ca[1];
    match a
    case Bundle(_) =>
    case ClusterTls(i) => assert ca[i] == ca[1];
    case OldBundle(_) =>
    case NewClusterTls(_) =>
  }

  // ---- The run, hook by hook ----

  /** The leader's certificate arrives. */
  lemma First(p: Plan, mover: Role, w: World, k: nat, bundle: seq<Certificate>) returns (s: Step)
    requires WellFormedWorld(w) && Stage(p, mover, w, k, bundle)
    ensures s == CertificateStep(mover, w.Of(mover).bag.leader, bundle)
    ensures Enabled(w, s) && Allowed(p, w, s) && OneSided(mover, w, s)
    ensures var us, r := w.Of(mover).bag, Apply(w, s).Of(mover).bag;
            && r.ca == bundle && r.leader == us.leader && |r.units| == |us.units|
            && r.units[us.leader].bundle == bundle && r.units[us.leader].rotate
            && forall i: nat | i < |us.units| && i != us.leader :: r.units[i] == us.units[i]
    ensures Apply(w, s).Of(mover.Other()) == w.Of(mover.Other())
    ensures |Apply(w, s).Of(mover).locals| == |w.Of(mover).bag.units|
    ensures var leader := w.Of(mover).bag.leader;
            Apply(w, s).Of(mover).locals[leader].disk
            == Install(bundle, w.Of(mover.Other()).bag.ca, w.Of(mover).bag.units[leader].bundle, w.clock + 1)
  {
    var leader := w.Of(mover).bag.leader;
    s := CertificateStep(mover, leader, bundle);
    hide Apply, Install, GoodPlan, Safe;
    assert RestUnit(p.Of(mover), w.Of(mover).locals[leader], w.Of(mover).bag.units[leader], w.Of(mover.Other()).bag,
      w.clock);
    assert RestBag(p.Of(mover), w.Of(mover).bag);
    StepHere(w, s);
    StepElsewhere(w, s, mover.Other(), 0);
  }

  /** The remote unit's pass files the new CA under a `new-` alias and asks for a restart. */
  lemma Adopts(l: Local, us: AppBag, them: AppBag, clock: nat, s: Step)
    requires s.ConfigStep? && Fits(s, us) && !us.units[s.me].rotate && GoodBundle(them.ca)
    requires ClusterTls(1) in l.disk.trust && (forall i: nat :: NewClusterTls(i) !in l.disk.trust)
    requires them.ca[1] !in l.disk.trust.Values
    ensures var r := LocalAfter(s, l, us, them, clock + 1);
            && r.pending && NewClusterTls(1) in r.disk.trust && Members(them.ca) <= r.disk.trust.Values
            && l.disk.trust.Values <= r.disk.trust.Values
  {
    FirstPass(l.disk, them.ca, clock + 1);
    assert PeerAlias(l.disk.trust, 1) == NewClusterTls(1);
    assert NewClusterTls(1) in Placed(l.disk.trust, them.ca, |them.ca|);
    assert them.ca[1] in Members(them.ca);
    hide PublishTrust, AnyRotating, GateOpen, Exempt, Members;
    PublishKeeps(l, us, s.me, false);
  }

  /** A restart that goes well loads and publishes; at a leader the application's trust is what all units
      publish. */
  lemma Restarts(l: Local, us: AppBag, them: AppBag, clock: nat, s: Step)
    requires s.RestartStep? && s.healthy && Fits(s, us) && l.disk.trust != map[] && s.me == us.leader
    requires Timed(l, clock)
    ensures var r, b := LocalAfter(s, l, us, them, clock + 1), BagAfter(s, l, us, them);
            && r.disk == l.disk && r.loadedKey == l.disk.keystore && r.lastRestart > r.disk.modified
            && b.units[s.me].published == l.disk.trust.Values && b.trust == TrustedByAll(b.units)
            && b.ca == us.ca && b.leader == us.leader
  {
    hide TrustedByAll;
  }

  /** The gate is open, and the leader's pass asks for its restart. */
  lemma Passes(g: Generation, r: Generation, l: Local, us: AppBag, them: AppBag, ra: bool, clock: nat, s: Step)
    requires s.ConfigStep? && Ready(g, r, s, l, us, them, ra, clock) && GateOpen(us.units[s.me], them) &&
             us.units[s.me].rotate
    requires us.ca == us.units[s.me].bundle && s.me == us.leader
    ensures var r := LocalAfter(s, l, us, them, clock + 1);
            && r.pending && r.disk.keystore == l.disk.keystore
            && (forall c | c in l.disk.trust.Values && c.Authority? :: c in r.disk.trust.Values)
    ensures BagAfter(s, l, us, them).ca == us.ca && BagAfter(s, l, us, them).leader == us.leader
  {
    hide PeerPass, PublishTrust, AnyRotating, Authorities, GoodGeneration, Apart, Stored, IsBefore, IsAfter, Offer,
      Coherent;
    OfferNonempty(r, them.ca, ra);
    PublishKeeps(l, us, s.me, false);
    PassAdds(l.disk, them.ca, clock + 1);
    PassLosesNoAuthority(g, r, us.units[s.me].bundle, l.disk, them.ca, ra, clock + 1);
  }

  /** Leadership has passed to a unit that offers the old bundle again: the remote unit's clean-up finds
      all it looks for and drops the new CA. */
  lemma Drops(g: Generation, r: Generation, l: Local, us: AppBag, them: AppBag, clock: nat, s: Step, c: Certificate)
    requires GoodGeneration(g) && GoodGeneration(r) && Apart(g, r) && Apart(r, g)
    requires s.StatusStep? && Fits(s, us) && |us.units| == 1 && !us.units[0].rotate
    requires IsBefore(r, us.units[0].bundle) && IsBefore(g, them.ca)
    requires Coherent(l, us.units[0], clock) && NewClusterTls(1) in l.disk.trust && l.lastRestart > l.disk.modified
    requires us.units[0].published == l.disk.trust.Values && Before(g) + Before(r) <= l.disk.trust.Values
    requires Before(g) + Before(r) <= them.trust && c in News(g)
    ensures c !in LocalAfter(s, l, us, them, clock + 1).disk.trust.Values
  {
    hide IsBefore, GoodGeneration, Apart, Rebuild, News, Timed, FilesHold, Before, Authorities, TrustedByAll;
    var pass := ConfigStep(s.role, s.me, s.properties);
    var bundle := us.units[0].bundle;
    var now := clock + 1;
    StatusShape(s, l, us, them, now);
    BundleSome(g, them.ca);
    OnlyUnitPass(l, us, them, now, pass);
    var passed, told := LocalAfter(pass, l, us, them, now), BagAfter(pass, l, us, them);
    assert NewClusterTls(1).Temporary();
    AuthoritiesOf(g, them.ca);
    AuthoritiesOf(r, bundle);
    OneUnit(told.units);
    assert CleanupDue(passed, told, them, 0);
    RebuildExact(passed.disk, bundle, them.ca, now);
    NotBefore(g, them.ca, c);
    assert c in g.after && c !in g.before by { NewsAre(g, c); }
    NotMine(g, r, bundle, c);
  }

  lemma NewsAre(g: Generation, c: Certificate)
    requires c in News(g)
    ensures c in g.after && c !in g.before
  {
  }

  lemma BundleSome(g: Generation, bundle: seq<Certificate>)
    requires IsBefore(g, bundle)
    ensures bundle != []
  {
  }

  lemma OneUnit(units: seq<UnitBag>)
    requires |units| == 1
    ensures TrustedByAll(units) == units[0].published
  {
    forall c ensures c in TrustedByAll(units) <==> c in units[0].published { TrustedByAllMeans(units, c); }
  }

  lemma OnlyUnitPass(l: Local, us: AppBag, them: AppBag, now: nat, s: Step)
    requires s.ConfigStep? && Fits(s, us) && |us.units| == 1 && l.disk.trust != map[]
    requires l.lastRestart > l.disk.modified && us.units[0].published == l.disk.trust.Values && them.ca != []
    ensures var passed, told := LocalAfter(s, l, us, them, now), BagAfter(s, l, us, them);
            && passed.disk == PeerPass(l.disk, them.ca, now) && |told.units| == 1
            && told.units[0].bundle == us.units[0].bundle && told.units[0].published == l.disk.trust.Values
            && (forall a | a in l.disk.trust :: a in passed.disk.trust)
            && (forall bundle: seq<Certificate> :: FilesHold(l.disk.files, bundle) ==>
               FilesHold(passed.disk.files, bundle))
  {
    assert forall a | a in l.disk.trust :: a in PeerPass(l.disk, them.ca, now).trust;
    forall bundle: seq<Certificate> | FilesHold(l.disk.files, bundle)
      ensures FilesHold(PeerPass(l.disk, them.ca, now).files, bundle) {
      PassFiles(l.disk, them.ca, bundle, now);
    }
    hide PeerPass, AnyRotating, HeldBack, TrustedByAll, FilesHold;
    PassTrust(s.role, l, us, them, s.me);
    PassKeepsBundles(s.role, l, us, them, s.me);
  }

  /** How far the run has come at the moving application, and what the rest relies on. */
  ghost predicate Cast(p: Plan, mover: Role, w: World, k: nat, bundle: seq<Certificate>)
    requires WellFormedWorld(w)
  {
    var us, them, g, r := w.Of(mover).bag, w.Of(mover.Other()).bag, p.Of(mover), p.Of(mover.Other());
    && GoodPlan(p) && Trusting(p, mover, w)
    && |them.units| == 1 && them.leader == 0 && k < |us.units| && k != us.leader
    && us.ca == bundle && us.units[us.leader].bundle == bundle && GoodBundle(bundle) && IsAfter(g, bundle) &&
       bundle[1] in News(g)
    && (forall i: nat | i < |us.units| && i != us.leader ::
          IsBefore(g, us.units[i].bundle) && Before(g) + Before(r) <= us.units[i].published)
    && Before(g) <= w.Of(mover).locals[us.leader].disk.trust.Values
  }

  lemma CastParts(p: Plan, mover: Role, w: World, k: nat, bundle: seq<Certificate>)
    requires WellFormedWorld(w) && Cast(p, mover, w, k, bundle)
    ensures var us, them, g, r := w.Of(mover).bag, w.Of(mover.Other()).bag, p.Of(mover), p.Of(mover.Other());
            && Safe(p, w) && CoherentWorld(w)
            && GoodGeneration(g) && GoodGeneration(r) && Apart(g, r) && Apart(r, g)
            && |w.Of(mover.Other()).locals| == 1 && |w.Of(mover).locals| == |us.units| && us.leader < |us.units|
            && HostUnit(g, r, w.Of(mover.Other()).locals[0], them.units[0], AllMoved(g, w.Of(mover).locals))
            && MoverUnit(g, r, w.Of(mover).locals[us.leader], us.units[us.leader], them.trust)
            && Coherent(w.Of(mover.Other()).locals[0], them.units[0], w.clock)
            && Coherent(w.Of(mover).locals[us.leader], us.units[us.leader], w.clock)
            && OwnFiled(w.Of(mover.Other()).locals[0].disk.trust, them.units[0].bundle)
            && OwnFiled(w.Of(mover).locals[us.leader].disk.trust, us.units[us.leader].bundle)
  {
    hide GoodGeneration, IsBefore, IsAfter, HostUnit, MoverUnit, OwnFiled, Timed, FilesHold, BagOk, AllMoved;
    var us := w.Of(mover).bag;
    assert mover.Other().Other() == mover;
    TellingAt(p, w, mover);
    SafeAt(p, w, mover);
    SafeAt(p, w, mover.Other());
    assert UnitOk(p.Of(mover.Other()), p.Of(mover), w.Of(mover.Other()).locals[0], w.Of(mover.Other()).bag.units[0],
      IsAfter(p.Of(mover), us.ca), w.clock);
    assert UnitOk(p.Of(mover), p.Of(mover.Other()), w.Of(mover).locals[us.leader], us.units[us.leader],
      IsAfter(p.Of(mover.Other()), w.Of(mover.Other()).bag.ca), w.clock);
    assert CoherentWorld(w) by { SoundCoherent(p, w, OffersNow(p, w)); }
  }

  lemma FirstCast(p: Plan, mover: Role, w: World, k: nat, bundle: seq<Certificate>, s: Step)
    requires WellFormedWorld(w) && Stage(p, mover, w, k, bundle)
    requires s == CertificateStep(mover, w.Of(mover).bag.leader, bundle) && Enabled(w, s) && Allowed(p, w, s) &&
             OneSided(mover, w, s)
    requires var us, r := w.Of(mover).bag, Apply(w, s).Of(mover).bag;
             && r.ca == bundle && r.leader == us.leader && |r.units| == |us.units|
             && r.units[us.leader].bundle == bundle && r.units[us.leader].rotate
             && forall i: nat | i < |us.units| && i != us.leader :: r.units[i] == us.units[i]
    requires Apply(w, s).Of(mover.Other()) == w.Of(mover.Other()) &&
             |Apply(w, s).Of(mover).locals| == |w.Of(mover).bag.units|
    requires var leader := w.Of(mover).bag.leader;
             Apply(w, s).Of(mover).locals[leader].disk
             == Install(bundle, w.Of(mover.Other()).bag.ca, w.Of(mover).bag.units[leader].bundle, w.clock + 1)
    ensures Cast(p, mover, Apply(w, s), k, bundle)
  {
    var us, them, g, r := w.Of(mover).bag, w.Of(mover.Other()).bag, p.Of(mover), p.Of(mover.Other());
    hide Apply, Install, GoodPlan, GoodGeneration, Trusting, Enabled, Allowed, OneSided, IsBefore, IsAfter, RestUnit,
      Before, Members, News, Safe;
    RestTrusting(p, mover, w);
    StepTrusting(p, mover, w, s);
    PlanParts(p, mover);
    assert mover.Other().Other() == mover;
    Sized(w, mover);
    Sized(w, mover.Other());
    assert RestBag(g, us) && RestBag(r, them);
    AuthoritiesOf(r, them.ca);
    var was := us.units[us.leader].bundle;
    AuthoritiesOf(g, was);
    InstallTrusts(bundle, them.ca, was, w.clock + 1);
    forall i: nat | i < |us.units| && i != us.leader
      ensures IsBefore(g, us.units[i].bundle) && Before(g) + Before(r) <= us.units[i].published {
      assert RestUnit(g, w.Of(mover).locals[i], us.units[i], them, w.clock);
      RestStore(g, w.Of(mover).locals[i], us.units[i], them, w.clock);
      AuthoritiesOf(g, us.units[i].bundle);
    }
  }

  /** Hooks of the remote unit leave the cast together. */
  lemma HostKeepsCast(p: Plan, mover: Role, w: World, k: nat, bundle: seq<Certificate>, s: Step)
    requires WellFormedWorld(w) && Cast(p, mover, w, k, bundle)
    requires s.role == mover.Other() && (s.ConfigStep? || s.RestartStep?) && Enabled(w, s)
    ensures Cast(p, mover, Apply(w, s), k, bundle)
  {
    hide Apply, GoodPlan, Trusting, Enabled, IsBefore, IsAfter, Before, Members, News, BagAfter, GoodBundle;
    assert Allowed(p, w, s) && OneSided(mover, w, s);
    assert mover.Other().Other() == mover;
    StepTrusting(p, mover, w, s);
    StepElsewhere(w, s, mover, 0);
    StepHere(w, s);
    StepBundles(s, w.Of(s.role).locals[s.me], w.Of(s.role).bag, w.Of(mover).bag);
  }

  /** And so do those of the leader itself. */
  lemma MoverKeepsCast(p: Plan, mover: Role, w: World, k: nat, bundle: seq<Certificate>, s: Step)
    requires WellFormedWorld(w) && Cast(p, mover, w, k, bundle)
    requires s.role == mover && s.me == w.Of(mover).bag.leader && (s.ConfigStep? || s.RestartStep?) && Enabled(w, s)
    requires Apply(w, s).Of(mover).bag.ca == bundle
    requires s.me < |Apply(w, s).Of(mover).locals| &&
             Before(p.Of(mover)) <= Apply(w, s).Of(mover).locals[s.me].disk.trust.Values
    ensures Cast(p, mover, Apply(w, s), k, bundle)
  {
    hide Apply, GoodPlan, Trusting, Enabled, IsBefore, IsAfter, Before, Members, News, BagAfter, GoodBundle;
    assert Allowed(p, w, s) && OneSided(mover, w, s);
    StepTrusting(p, mover, w, s);
    StepElsewhere(w, s, mover.Other(), 0);
    StepHere(w, s);
    StepBundles(s, w.Of(mover).locals[s.me], w.Of(mover).bag, w.Of(mover.Other()).bag);
  }

  /** What is known of the remote unit once it has adopted the new CA ... */
  ghost predicate Adopted(mover: Role, w: World, bundle: seq<Certificate>)
    requires WellFormedWorld(w)
  {
    var host := w.Of(mover.Other());
    host.locals != [] && NewClusterTls(1) in host.locals[0].disk.trust &&
      Members(bundle) <= host.locals[0].disk.trust.Values
  }

  /** The mover's leader has a rotation ahead. */
  ghost predicate Rotates(mover: Role, w: World)
    requires WellFormedWorld(w)
  {
    w.Of(mover).bag.leader < |w.Of(mover).bag.units| && w.Of(mover).bag.units[w.Of(mover).bag.leader].rotate
  }

  /** ... and once it has restarted with it. */
  ghost predicate Told(mover: Role, w: World)
    requires WellFormedWorld(w)
  {
    var host := w.Of(mover.Other());
    && |host.locals| == |host.bag.units| == 1
    && host.locals[0].lastRestart > host.locals[0].disk.modified
    && host.bag.units[0].published == host.locals[0].disk.trust.Values == host.bag.trust
  }

  /** The bundle of the application's first unit. */
  ghost predicate SameBundle(role: Role, w: World, r: World)
    requires WellFormedWorld(w) && WellFormedWorld(r)
  {
    && w.Of(role).bag.units != [] && r.Of(role).bag.units != []
    && r.Of(role).bag.units[0].bundle == w.Of(role).bag.units[0].bundle
  }

  lemma SecondStep(p: Plan, mover: Role, w: World, k: nat, bundle: seq<Certificate>) returns (s: Step)
    requires WellFormedWorld(w) && Cast(p, mover, w, k, bundle) && Rotates(mover, w)
    requires w.Of(mover.Other()).locals != []
    requires var t := w.Of(mover.Other()).locals[0].disk.trust;
             ClusterTls(1) in t && (forall i: nat :: NewClusterTls(i) !in t) && bundle[1] !in t.Values
    ensures s == ConfigStep(mover.Other(), 0, false) && Enabled(w, s) && Apply(w, s).Of(mover) == w.Of(mover)
    ensures Apply(w, s).Of(mover.Other()).locals != []
    ensures Cast(p, mover, Apply(w, s), k, bundle) && Adopted(mover, Apply(w, s), bundle) && Rotates(mover, Apply(w, s))
    ensures Apply(w, s).Of(mover.Other()).locals[0].pending && SameBundle(mover.Other(), w, Apply(w, s))
  {
    hide Apply, GoodPlan, Trusting, IsBefore, IsAfter, Before, Members, News, BagAfter, LocalAfter, GoodGeneration,
      Apart, Safe, AllMoved;
    CastParts(p, mover, w, k, bundle);
    s := ConfigStep(mover.Other(), 0, false);
    assert mover.Other().Other() == mover;
    StepElsewhere(w, s, mover, 0);
    StepHere(w, s);
    var host := w.Of(mover.Other());
    StepBundles(s, host.locals[0], host.bag, w.Of(mover).bag);
    Adopts(host.locals[0], host.bag, w.Of(mover).bag, w.clock, s);
    HostKeepsCast(p, mover, w, k, bundle, s);
  }

  lemma ThirdStep(p: Plan, mover: Role, w: World, k: nat, bundle: seq<Certificate>) returns (s: Step)
    requires WellFormedWorld(w) && Cast(p, mover, w, k, bundle) && Adopted(mover, w, bundle) && Rotates(mover, w)
    requires w.Of(mover.Other()).locals[0].pending
    ensures s == RestartStep(mover.Other(), 0, true) && Enabled(w, s) && Apply(w, s).Of(mover) == w.Of(mover)
    ensures Cast(p, mover, Apply(w, s), k, bundle) && Adopted(mover, Apply(w, s), bundle)
    ensures Told(mover, Apply(w, s)) && Rotates(mover, Apply(w, s)) && SameBundle(mover.Other(), w, Apply(w, s))
  {
    hide Apply, GoodPlan, Trusting, IsBefore, IsAfter, Before, Members, News, BagAfter, LocalAfter, GoodGeneration,
      Apart, Safe, AllMoved, Timed, TrustedByAll;
    CastParts(p, mover, w, k, bundle);
    s := RestartStep(mover.Other(), 0, true);
    assert mover.Other().Other() == mover;
    StepElsewhere(w, s, mover, 0);
    StepHere(w, s);
    var host := w.Of(mover.Other());
    assert NewClusterTls(1) in host.locals[0].disk.trust;
    StepBundles(s, host.locals[0], host.bag, w.Of(mover).bag);
    Restarts(host.locals[0], host.bag, w.Of(mover).bag, w.clock, s);
    OneUnit(Apply(w, s).Of(mover.Other()).bag.units);
    HostKeepsCast(p, mover, w, k, bundle, s);
  }

  lemma FourthStep(p: Plan, mover: Role, w: World, k: nat, bundle: seq<Certificate>) returns (s: Step)
    requires WellFormedWorld(w) && Cast(p, mover, w, k, bundle) && Adopted(mover, w, bundle) && Told(mover, w) &&
             Rotates(mover, w)
    ensures s == ConfigStep(mover, w.Of(mover).bag.leader, false) && Enabled(w, s)
    ensures Cast(p, mover, Apply(w, s), k, bundle) && Adopted(mover, Apply(w, s), bundle) && Told(mover, Apply(w, s))
    ensures Apply(w, s).Of(mover).bag.leader == w.Of(mover).bag.leader < |Apply(w, s).Of(mover).locals|
    ensures Apply(w, s).Of(mover).locals[w.Of(mover).bag.leader].pending
  {
    hide Apply, GoodPlan, Trusting, IsBefore, IsAfter, Before, After, Members, News, BagAfter, LocalAfter,
      GoodGeneration, Apart, Safe, AllMoved, Timed, Authorities;
    CastParts(p, mover, w, k, bundle);
    var us, them, leader := w.Of(mover).bag, w.Of(mover.Other()).bag, w.Of(mover).bag.leader;
    s := ConfigStep(mover, leader, false);
    assert mover.Other().Other() == mover && Allowed(p, w, s);
    SafeReady(p, w, s);
    StepElsewhere(w, s, mover.Other(), 0);
    StepHere(w, s);
    AuthoritiesOf(p.Of(mover), bundle);
    BeforeAuthorities(p.Of(mover));
    Passes(p.Of(mover), p.Of(mover.Other()), w.Of(mover).locals[leader], us, them,
      IsAfter(p.Of(mover.Other()), them.ca), w.clock, s);
    MoverKeepsCast(p, mover, w, k, bundle, s);
  }

  lemma FifthStep(p: Plan, mover: Role, w: World, k: nat, bundle: seq<Certificate>) returns (s: Step)
    requires WellFormedWorld(w) && Cast(p, mover, w, k, bundle) && Adopted(mover, w, bundle) && Told(mover, w)
    requires w.Of(mover).bag.leader < |w.Of(mover).locals| && w.Of(mover).locals[w.Of(mover).bag.leader].pending
    ensures s == RestartStep(mover, w.Of(mover).bag.leader, true) && Enabled(w, s)
    ensures Cast(p, mover, Apply(w, s), k, bundle) && Adopted(mover, Apply(w, s), bundle) && Told(mover, Apply(w, s))
    ensures Before(p.Of(mover)) + Before(p.Of(mover.Other())) <= Apply(w, s).Of(mover).bag.trust
    ensures var leader := w.Of(mover).bag.leader;
            leader < |Apply(w, s).Of(mover).locals| && Apply(w, s).Of(mover).locals[leader].loadedKey == bundle
  {
    hide Apply, GoodPlan, Trusting, IsBefore, IsAfter, Before, After, Members, News, BagAfter, LocalAfter,
      GoodGeneration, Apart, Safe, AllMoved, Timed, Authorities, TrustedByAll, GoodBundle;
    CastParts(p, mover, w, k, bundle);
    var us, them, leader := w.Of(mover).bag, w.Of(mover.Other()).bag, w.Of(mover).bag.leader;
    var g, r := p.Of(mover), p.Of(mover.Other());
    s := RestartStep(mover, leader, true);
    StepElsewhere(w, s, mover.Other(), 0);
    StepHere(w, s);
    OwnIn(w.Of(mover).locals[leader].disk.trust, bundle);
    LongBundle(bundle);
    Restarts(w.Of(mover).locals[leader], us, them, w.clock, s);
    MoverKeepsCast(p, mover, w, k, bundle, s);
    var told := Apply(w, s).Of(mover).bag;
    forall c | c in Before(g) + Before(r) ensures c in told.trust {
      forall i: nat | i < |told.units| ensures c in told.units[i].published { assert i == leader || i != leader; }
      TrustedByAllMeans(told.units, c);
    }
  }

  lemma LongBundle(bundle: seq<Certificate>)
    requires GoodBundle(bundle)
    ensures |bundle| >= 2
  {
  }

  lemma OwnIn(t: Trust, bundle: seq<Certificate>)
    requires OwnFiled(t, bundle)
    ensures Members(bundle) <= t.Values && (bundle != [] ==> t != map[])
  {
    forall c | c in Members(bundle) ensures c in t.Values {
      var i: nat :| i < |bundle| && bundle[i] == c;
      assert t[Bundle(i)] == c;
    }
    if bundle != [] { assert Bundle(0) in t; }
  }

  /** The election and the new leader's offer. */
  lemma TakeOver(p: Plan, mover: Role, w: World, k: nat, bundle: seq<Certificate>) returns (s: Step, o: Step)
    requires WellFormedWorld(w) && Cast(p, mover, w, k, bundle)
    ensures s == ElectStep(mover, k) && o == OfferStep(mover, k) && Enabled(w, s) && Enabled(Apply(w, s), o)
    ensures var r := Apply(Apply(w, s), o);
            && CoherentWorld(r) && r.Of(mover.Other()) == w.Of(mover.Other()) &&
               r.Of(mover).locals == w.Of(mover).locals
            && r.Of(mover).bag.ca == w.Of(mover).bag.units[k].bundle && r.Of(mover).bag.trust == w.Of(mover).bag.trust
  {
    hide GoodPlan, Trusting, IsBefore, IsAfter, Before, Members, News, GoodBundle, CoherentWorld;
    CastParts(p, mover, w, k, bundle);
    s, o := ElectStep(mover, k), OfferStep(mover, k);
    Sized(w, mover);
    StepCoherent(w, s);
    StepCoherent(Apply(w, s), o);
  }

  /** What the remote unit's store still holds of the first generation. */
  lemma StillOld(p: Plan, mover: Role, w: World, k: nat, bundle: seq<Certificate>)
    requires WellFormedWorld(w) && Cast(p, mover, w, k, bundle)
    ensures var host := w.Of(mover.Other());
            && |host.locals| == |host.bag.units| == 1 && !host.bag.units[0].rotate &&
               IsBefore(p.Of(mover.Other()), host.bag.units[0].bundle)
            && Before(p.Of(mover)) + Before(p.Of(mover.Other())) <= host.locals[0].disk.trust.Values
  {
    hide GoodPlan, Trusting, IsBefore, IsAfter, Before, After, Members, News, GoodGeneration, Safe, Coherent,
      GoodBundle, OwnFiled;
    CastParts(p, mover, w, k, bundle);
    var g, r, us := p.Of(mover), p.Of(mover.Other()), w.Of(mover).bag;
    SafeAt(p, w, mover);
    LoadedGeneration(g, r, w.Of(mover), w.Of(mover.Other()).bag, k, IsAfter(r, w.Of(mover.Other()).bag.ca), w.clock);
    GenerationsDiffer(g, us.units[k].bundle);
    assert !AllMoved(g, w.Of(mover).locals);
    var host := w.Of(mover.Other());
    OwnIn(host.locals[0].disk.trust, host.bag.units[0].bundle);
    AuthoritiesOf(r, host.bag.units[0].bundle);
  }

  lemma LastStep(p: Plan, mover: Role, w: World, r: World, k: nat, bundle: seq<Certificate>) returns (s: Step)
    requires WellFormedWorld(w) && WellFormedWorld(r) && Cast(p, mover, w, k, bundle) && Adopted(mover, w, bundle) &&
             Told(mover, w)
    requires Before(p.Of(mover)) + Before(p.Of(mover.Other())) <= w.Of(mover).bag.trust
    requires CoherentWorld(r) && r.Of(mover.Other()) == w.Of(mover.Other()) && r.Of(mover).locals == w.Of(mover).locals
    requires r.Of(mover).bag.ca == w.Of(mover).bag.units[k].bundle && r.Of(mover).bag.trust == w.Of(mover).bag.trust
    ensures s == StatusStep(mover.Other(), 0, false) && Enabled(r, s)
    ensures |r.Of(mover.Other()).locals| == 1 && bundle[1] in r.Of(mover.Other()).locals[0].disk.trust.Values
    ensures |Apply(r, s).Of(mover.Other()).locals| == 1 &&
            bundle[1] !in Apply(r, s).Of(mover.Other()).locals[0].disk.trust.Values
  {
    hide GoodPlan, Trusting, IsBefore, IsAfter, Before, After, News, GoodGeneration, Safe, Apply, LocalAfter,
      BagAfter, Apart, Coherent;
    StillOld(p, mover, w, k, bundle);
    CastParts(p, mover, w, k, bundle);
    s := StatusStep(mover.Other(), 0, false);
    assert mover.Other().Other() == mover;
    StepHere(r, s);
    var host, g, h := r.Of(mover.Other()), p.Of(mover), p.Of(mover.Other());
    assert bundle[1] in Members(bundle);
    assert CoherentApp(host, r.clock) && Coherent(host.locals[0], host.bag.units[0], r.clock);
    Drops(g, h, host.locals[0], host.bag, r.Of(mover).bag, r.clock, s, bundle[1]);
  }

  lemma Opening(p: Plan, mover: Role, w: World, k: nat, bundle: seq<Certificate>) returns (s: Step)
    requires WellFormedWorld(w) && Stage(p, mover, w, k, bundle)
    ensures s.CertificateStep? && Enabled(w, s) && Moving(p, w, s) && Cast(p, mover, Apply(w, s), k, bundle) &&
            Rotates(mover, Apply(w, s))
    ensures Apply(w, s).Of(mover).bag.leader == w.Of(mover).bag.leader
    ensures k < |Apply(w, s).Of(mover).bag.units| && Apply(w, s).Of(mover).bag.units[k] == w.Of(mover).bag.units[k]
    ensures Apply(w, s).Of(mover.Other()) == w.Of(mover.Other())
    ensures Apply(w, s).Of(mover.Other()).locals != []
    ensures var t := Apply(w, s).Of(mover.Other()).locals[0].disk.trust;
            ClusterTls(1) in t && (forall i: nat :: NewClusterTls(i) !in t) && bundle[1] !in t.Values
  {
    hide Apply, IsBefore, IsAfter, GoodPlan, GoodGeneration, Enabled, Allowed, OneSided, Cast, Install, RestUnit,
      Before, News, Members, GoodBundle;
    s := First(p, mover, w, k, bundle);
    FirstCast(p, mover, w, k, bundle, s);
    var g, r, us, host := p.Of(mover), p.Of(mover.Other()), w.Of(mover).bag, w.Of(mover.Other());
    assert mover.Other().Other() == mover;
    Sized(w, mover);
    Sized(w, mover.Other());
    PlanParts(p, mover);
    PlanFacts(p, mover);
    assert RestBag(g, us) && RestUnit(r, host.locals[0], host.bag.units[0], us, w.clock);
    RestStore(r, host.locals[0], host.bag.units[0], us, w.clock);
    assert GoodBundle(us.ca) by { LeaderBundle(w, mover); }
    AliasOne(g, r, host.locals[0].disk.trust, host.bag.units[0].bundle, us.ca);
    LongBundle(bundle);
    NewsAre(g, bundle[1]);
    NotMine(g, r, host.bag.units[0].bundle, bundle[1]);
    NotBefore(g, us.ca, bundle[1]);
  }

  lemma LeaderBundle(w: World, mover: Role)
    requires WellFormedWorld(w)
    ensures GoodBundle(w.Of(mover).bag.units[w.Of(mover).bag.leader].bundle)
  {
    hide GoodBundle;
    assert w.Of(mover).bag.units[w.Of(mover).bag.leader] in w.Of(mover).bag.units;
  }

  /** Steps other than certificate events are always within the plan. */
  lemma Moves(p: Plan, w: World, s: Step)
    requires WellFormedWorld(w) && Enabled(w, s) && !s.CertificateStep? && !s.BrokenStep?
    ensures Moving(p, w, s)
  {
  }

  lemma Nothing(p: Plan, w: World)
    requires WellFormedWorld(w)
    ensures Runs(w, []) && Run(w, []) == w && MovingRun(p, w, [])
  {
  }

  /** Whatever the plan and the applications at rest: after the leader has rotated, an election of a unit
      that has not, and that unit's offer, make the remote unit's clean-up drop the CA certificate under
      which the former leader is presenting. */
  lemma ElectionDropsCa(p: Plan, mover: Role, w: World, k: nat, bundle: seq<Certificate>)
    returns (steps: seq<Step>, last: Step)
    requires WellFormedWorld(w) && Stage(p, mover, w, k, bundle)
    ensures |steps| == 7 && Runs(w, steps) && MovingRun(p, w, steps) && last.StatusStep? &&
            last.role == mover.Other() && Enabled(Run(w, steps), last)
    ensures steps[5] == ElectStep(mover, k) && forall i: nat | i < 7 && i != 5 :: !steps[i].ElectStep?
    ensures var end, leader := Run(w, steps), w.Of(mover).bag.leader;
            && leader < |end.Of(mover).locals| && bundle[1] in Authorities(end.Of(mover).locals[leader].loadedKey)
            && |end.Of(mover.Other()).locals| == 1 && bundle[1] in end.Of(mover.Other()).locals[0].disk.trust.Values
            && |Apply(end, last).Of(mover.Other()).locals| == 1
            && bundle[1] !in Apply(end, last).Of(mover.Other()).locals[0].disk.trust.Values
  {
    hide *;
    Nothing(p, w);
    steps := [];
    var s1 := Opening(p, mover, w, k, bundle);
    var w1 := Apply(w, s1);
    Extend(p, w, steps, s1);
    steps := steps + [s1];
    var s2 := SecondStep(p, mover, w1, k, bundle);
    var w2 := Apply(w1, s2);
    Moves(p, w1, s2);
    Extend(p, w, steps, s2);
    steps := steps + [s2];
    var s3 := ThirdStep(p, mover, w2, k, bundle);
    var w3 := Apply(w2, s3);
    Moves(p, w2, s3);
    Extend(p, w, steps, s3);
    steps := steps + [s3];
    var s4 := FourthStep(p, mover, w3, k, bundle);
    var w4 := Apply(w3, s4);
    Moves(p, w3, s4);
    Extend(p, w, steps, s4);
    steps := steps + [s4];
    var s5 := FifthStep(p, mover, w4, k, bundle);
    var w5 := Apply(w4, s5);
    Moves(p, w4, s5);
    Extend(p, w, steps, s5);
    steps := steps + [s5];
    var s6, s7 := TakeOver(p, mover, w5, k, bundle);
    Moves(p, w5, s6);
    Moves(p, Apply(w5, s6), s7);
    Extend(p, w, steps, s6);
    steps := steps + [s6];
    Extend(p, w, steps, s7);
    steps := steps + [s7];
    var r := Apply(Apply(w5, s6), s7);
    last := LastStep(p, mover, w5, r, k, bundle);
    Presents(p, mover, w5, k, bundle);
  }

  lemma Presents(p: Plan, mover: Role, w: World, k: nat, bundle: seq<Certificate>)
    requires WellFormedWorld(w) && Cast(p, mover, w, k, bundle)
    ensures |bundle| >= 2 && bundle[1] in Authorities(bundle)
  {
    hide Trusting, IsBefore, IsAfter, Members, Before;
    NewsAre(p.Of(mover), bundle[1]);
    PlanParts(p, mover);
  }

  // ---- A queued restart ----

  /** At rest no store holds anything of the other application's second generation. */
  lemma RestKnowsNoNews(p: Plan, mover: Role, w: World, v: nat, c: Certificate)
    requires GoodPlan(p) && WellFormedWorld(w) && AtRest(p, w) && v < |w.Of(mover.Other()).locals| &&
             c in News(p.Of(mover))
    ensures c !in w.Of(mover.Other()).locals[v].loadedTrust.Values
  {
    hide GoodPlan, GoodGeneration, IsBefore, IsAfter, RestUnit, Members, News;
    var g, r, host, us := p.Of(mover), p.Of(mover.Other()), w.Of(mover.Other()), w.Of(mover).bag;
    assert mover.Other().Other() == mover;
    PlanParts(p, mover);
    PlanFacts(p, mover);
    Sized(w, mover.Other());
    assert RestBag(g, us) && RestUnit(r, host.locals[v], host.bag.units[v], us, w.clock);
    RestStore(r, host.locals[v], host.bag.units[v], us, w.clock);
    NewsAre(g, c);
    NotMine(g, r, host.bag.units[v].bundle, c);
    NotBefore(g, us.ca, c);
  }

  lemma AsksForRestart(l: Local, us: AppBag, them: AppBag, s: Step, now: nat)
    requires s.ConfigStep? && s.properties && Fits(s, us) && !us.units[s.me].rotate && them.ca != []
    ensures LocalAfter(s, l, us, them, now).pending
  {
    hide PeerPass, PublishTrust, AnyRotating;
    PublishKeeps(l, us, s.me, false);
  }

  /** A changed property queues a restart, the new certificate arrives, and the restart goes ahead: the
      unit presents a CA that no process of the other application has loaded, although the gate is shut. */
  lemma QueuedRestartBypassesGate(p: Plan, mover: Role, w: World, u: nat, bundle: seq<Certificate>, v: nat)
    returns (steps: seq<Step>)
    requires GoodPlan(p) && WellFormedWorld(w) && AtRest(p, w) && u < |w.Of(mover).locals| &&
             v < |w.Of(mover.Other()).locals|
    requires GoodBundle(bundle) && IsAfter(p.Of(mover), bundle) && bundle[0] != w.Of(mover).bag.units[u].bundle[0]
    ensures Runs(w, steps) && MovingRun(p, w, steps) && Run(w, steps).Of(mover.Other()) == w.Of(mover.Other())
    ensures u < |Run(w, steps).Of(mover).locals| && Run(w, steps).Of(mover).locals[u].loadedKey == bundle
    ensures !TrustEachOther(Run(w, steps).Of(mover).locals[u], w.Of(mover.Other()).locals[v])
  {
    hide AtRest, Enabled, TrustEachOther, GoodPlan, GoodGeneration, IsBefore, IsAfter, RestUnit, Install, News, Apply,
      BagAfter, LocalAfter, Authorities, GoodBundle, Runs, Run, WellFormedApp;
    var host := w.Of(mover.Other());
    var c := SomeNews(p, mover, bundle);
    RestKnowsNoNews(p, mover, w, v, c);
    Sized(w, mover);
    var a := ConfigStep(mover, u, true);
    RestAsks(p, mover, w, a);
    var w1 := Apply(w, a);
    Nothing(p, w);
    Moves(p, w, a);
    Extend(p, w, [], a);
    StepElsewhere(w, a, mover.Other(), 0);
    StepHere(w, a);
    StepBundles(a, w.Of(mover).locals[u], w.Of(mover).bag, host.bag);
    Sized(w1, mover);
    var b := CertificateStep(mover, u, bundle);
    NewCertificate(p, w1, b);
    var w2 := Apply(w1, b);
    steps := [] + [a];
    Extend(p, w, steps, b);
    StepElsewhere(w1, b, mover.Other(), 0);
    StepHere(w1, b);
    Arrives(w1.Of(mover).locals[u], w1.Of(mover).bag, host.bag, b, w1.clock + 1);
    Sized(w2, mover);
    var d := RestartStep(mover, u, true);
    QueuedRestart(w2, d);
    steps := steps + [b];
    Moves(p, w2, d);
    Extend(p, w, steps, d);
    StepElsewhere(w2, d, mover.Other(), 0);
    StepHere(w2, d);
    Loads(w2.Of(mover).locals[u], w2.Of(mover).bag, host.bag, d, w2.clock + 1);
    steps := steps + [d];
    Untrusted(Run(w, steps).Of(mover).locals[u], host.locals[v], c);
  }

  lemma SomeNews(p: Plan, mover: Role, bundle: seq<Certificate>) returns (c: Certificate)
    requires GoodPlan(p) && IsAfter(p.Of(mover), bundle)
    ensures c in News(p.Of(mover)) && c in Authorities(bundle)
  {
    PlanParts(p, mover);
    c :| c in News(p.Of(mover));
    AuthoritiesOf(p.Of(mover), bundle);
  }

  lemma NewCertificate(p: Plan, w: World, s: Step)
    requires WellFormedWorld(w) && s.CertificateStep? && GoodBundle(s.bundle) && s.me < |w.Of(s.role).bag.units|
    requires s.bundle[0] != w.Of(s.role).bag.units[s.me].bundle[0] && IsAfter(p.Of(s.role), s.bundle)
    ensures Enabled(w, s) && Moving(p, w, s)
  {
  }

  lemma QueuedRestart(w: World, s: Step)
    requires WellFormedWorld(w) && s.RestartStep? && s.me < |w.Of(s.role).locals| && w.Of(s.role).locals[s.me].pending
    ensures Enabled(w, s)
  {
  }

  lemma Untrusted(a: Local, b: Local, c: Certificate)
    requires c in Authorities(a.loadedKey) && c !in b.loadedTrust.Values
    ensures !TrustEachOther(a, b)
  {
  }

  lemma RestAsks(p: Plan, mover: Role, w: World, s: Step)
    requires WellFormedWorld(w) && AtRest(p, w) && s.ConfigStep? && s.properties && s.role == mover &&
             s.me < |w.Of(mover).locals|
    ensures Enabled(w, s) && LocalAfter(s, w.Of(mover).locals[s.me], w.Of(mover).bag, w.Of(mover.Other()).bag,
            w.clock + 1).pending
  {
    hide LocalAfter, AtRest, WellFormedApp;
    Sized(w, mover);
    RestIdle(p, mover, w, s.me);
    AsksForRestart(w.Of(mover).locals[s.me], w.Of(mover).bag, w.Of(mover.Other()).bag, s, w.clock + 1);
  }

  lemma RestIdle(p: Plan, mover: Role, w: World, u: nat)
    requires WellFormedWorld(w) && AtRest(p, w) && u < |w.Of(mover).locals|
    ensures u < |w.Of(mover).bag.units| && !w.Of(mover).bag.units[u].rotate && w.Of(mover.Other()).bag.ca != []
  {
    hide Install, WellFormedApp, IsBefore;
    Sized(w, mover);
    assert RestUnit(p.Of(mover), w.Of(mover).locals[u], w.Of(mover).bag.units[u], w.Of(mover.Other()).bag, w.clock);
    assert RestBag(p.Of(mover.Other()), w.Of(mover.Other()).bag);
    BundleSome(p.Of(mover.Other()), w.Of(mover.Other()).bag.ca);
  }

  lemma Arrives(l: Local, us: AppBag, them: AppBag, s: Step, now: nat)
    requires s.CertificateStep? && Fits(s, us)
    ensures var r := LocalAfter(s, l, us, them, now);
            r.disk.keystore == s.bundle && r.pending == l.pending
  {
    hide Install, Members;
    var kept := if s.bundle[1] != us.units[s.me].bundle[1] then us.units[s.me].bundle else [];
    InstallTrusts(s.bundle, them.ca, kept, now);
  }

  lemma Loads(l: Local, us: AppBag, them: AppBag, s: Step, now: nat)
    requires s.RestartStep? && Fits(s, us)
    ensures LocalAfter(s, l, us, them, now).loadedKey == l.disk.keystore
  {
  }

  // ---- Both applications rotating ----

  /** With the remote rotation announced, a rotating broker's pass asks for its restart, gate or no gate. */
  lemma ExemptAsks(l: Local, us: AppBag, them: AppBag, s: Step, now: nat)
    requires s.ConfigStep? && s.role.BrokerApp? && Fits(s, us) && us.units[s.me].rotate && them.rotating &&
             them.ca != []
    ensures var r := LocalAfter(s, l, us, them, now);
            r.pending && r.disk.keystore == l.disk.keystore
  {
    hide PeerPass, PublishTrust, GateOpen;
    PublishKeeps(l, us, s.me, false);
    var told := PublishTrust(l, us, s.me, false);
    assert told.units[s.me] in told.units;
    PassAdds(l.disk, them.ca, now);
  }

  /** A leader's new certificate announces its rotation. */
  lemma Announces(l: Local, us: AppBag, them: AppBag, s: Step, now: nat)
    requires s.CertificateStep? && Fits(s, us) && s.me == us.leader && s.bundle[0] != us.units[s.me].bundle[0]
    ensures var r := BagAfter(s, l, us, them);
            r.rotating && r.ca == s.bundle && r.units[s.me].rotate && r.units[s.me].bundle == s.bundle
  {
  }

  lemma Rotating(l: Local, us: AppBag, them: AppBag, s: Step)
    requires s.CertificateStep? && Fits(s, us) && s.bundle[0] != us.units[s.me].bundle[0]
    ensures var r := BagAfter(s, l, us, them); |r.units| == |us.units| && r.units[s.me].rotate
  {
  }

  /** When both applications rotate, the brokers' exemption has its price: from rest, new certificates at
      the controller leader and at a broker, the broker's pass and its restart, and the broker presents a CA
      that no controller has loaded. */
  lemma ExemptionBypassesGate(p: Plan, w: World, u: nat, bundle: seq<Certificate>, remote: seq<Certificate>, v: nat)
    returns (steps: seq<Step>)
    requires GoodPlan(p) && WellFormedWorld(w) && AtRest(p, w) && u < |w.broker.locals| && v < |w.controller.locals|
    requires GoodBundle(bundle) && IsAfter(p.broker, bundle) && bundle[0] != w.broker.bag.units[u].bundle[0]
    requires GoodBundle(remote) && IsAfter(p.controller, remote)
    requires remote[0] != w.controller.bag.units[w.controller.bag.leader].bundle[0]
    ensures Runs(w, steps) && MovingRun(p, w, steps)
    ensures u < |Run(w, steps).broker.locals| && |Run(w, steps).controller.locals| == |w.controller.locals|
    ensures !TrustEachOther(Run(w, steps).broker.locals[u], Run(w, steps).controller.locals[v])
  {
    hide AtRest, Enabled, TrustEachOther, GoodPlan, GoodGeneration, IsBefore, IsAfter, RestUnit, Install, News, Apply,
      BagAfter, LocalAfter, Authorities, GoodBundle, Runs, Run, WellFormedApp, MovingRun, Moving;
    assert w.Of(BrokerApp) == w.broker && w.Of(ControllerApp) == w.controller && BrokerApp.Other() == ControllerApp;
    var c := SomeNews(p, BrokerApp, bundle);
    RestKnowsNoNews(p, BrokerApp, w, v, c);
    Nothing(p, w);
    Sized(w, BrokerApp);
    Sized(w, ControllerApp);
    LongBundle(bundle);
    LongBundle(remote);
    var a := CertificateStep(ControllerApp, w.controller.bag.leader, remote);
    NewCertificate(p, w, a);
    Extend(p, w, [], a);
    var w1 := Apply(w, a);
    StepElsewhere(w, a, BrokerApp, 0);
    StepHere(w, a);
    Announces(w.controller.locals[a.me], w.controller.bag, w.broker.bag, a, w.clock + 1);
    OnlyRestartsLoad(a, w.controller.locals[a.me], w.controller.bag, w.broker.bag, w.clock + 1);
    steps := [] + [a];
    var b := CertificateStep(BrokerApp, u, bundle);
    NewCertificate(p, w1, b);
    Extend(p, w, steps, b);
    var w2 := Apply(w1, b);
    steps := steps + [b];
    StepElsewhere(w1, b, ControllerApp, 0);
    StepHere(w1, b);
    Rotating(w1.broker.locals[u], w1.broker.bag, w1.controller.bag, b);
    Arrives(w1.broker.locals[u], w1.broker.bag, w1.controller.bag, b, w1.clock + 1);
    var d := ConfigStep(BrokerApp, u, false);
    Passable(w2, d);
    Moves(p, w2, d);
    Extend(p, w, steps, d);
    var w3 := Apply(w2, d);
    steps := steps + [d];
    StepElsewhere(w2, d, ControllerApp, 0);
    StepHere(w2, d);
    ExemptAsks(w2.broker.locals[u], w2.broker.bag, w2.controller.bag, d, w2.clock + 1);
    var e := RestartStep(BrokerApp, u, true);
    Sized(w3, BrokerApp);
    QueuedRestart(w3, e);
    Moves(p, w3, e);
    Extend(p, w, steps, e);
    var w4 := Apply(w3, e);
    steps := steps + [e];
    StepElsewhere(w3, e, ControllerApp, 0);
    StepHere(w3, e);
    Loads(w3.broker.locals[u], w3.broker.bag, w3.controller.bag, e, w3.clock + 1);
    Untrusted(w4.broker.locals[u], w4.controller.locals[v], c);
  }

  lemma Passable(w: World, s: Step)
    requires WellFormedWorld(w) && s.ConfigStep? && s.me < |w.Of(s.role).bag.units|
    ensures Enabled(w, s)
  {
  }

  // ---- An open gate ----

  /** What is certain once the remote leader has its new certificate too: its process still presents the old CA
      certificate `c`, its offer does not have it any more, and the gate is open for unit `k`'s new bundle. */
  ghost predicate Crossed(mover: Role, w: World, k: nat, bundle: seq<Certificate>, c: Certificate)
    requires WellFormedWorld(w)
  {
    var app, host := w.Of(mover), w.Of(mover.Other());
    && k < |app.locals| && k < |app.bag.units|
    && |host.locals| == 1 && c in Authorities(host.locals[0].loadedKey)
    && host.bag.ca != [] && c !in Members(host.bag.ca) && Authorities(bundle) <= host.bag.trust
  }

  /** And what becomes of unit `k`: rotating with its new bundle, and with a store that lacks `c`. */
  ghost predicate Bare(mover: Role, w: World, k: nat, bundle: seq<Certificate>, c: Certificate)
    requires WellFormedWorld(w)
  {
    var app := w.Of(mover);
    && Crossed(mover, w, k, bundle, c)
    && app.bag.units[k].bundle == bundle && c !in app.locals[k].disk.trust.Values
  }

  /** The remote leader's certificate arrives. */
  lemma HostMoves(
      p: Plan, mover: Role, w: World, k: nat, bundle: seq<Certificate>, s: Step, next: seq<Certificate>, c: Certificate)
    requires WellFormedWorld(w) && Cast(p, mover, w, k, bundle) && Adopted(mover, w, bundle) && Told(mover, w)
    requires IsAfter(p.Of(mover), next) && c in p.Of(mover.Other()).before && c !in p.Of(mover.Other()).after
    requires s.CertificateStep? && s.role == mover.Other() && s.me == 0 && Enabled(w, s)
    requires IsAfter(p.Of(mover.Other()), s.bundle)
    ensures Apply(w, s).Of(mover) == w.Of(mover) && Crossed(mover, Apply(w, s), k, next, c)
  {
    hide GoodPlan, Trusting, IsBefore, IsAfter, Before, After, Members, News, GoodGeneration, Safe, Apply, LocalAfter,
      BagAfter, Apart, Coherent, GoodBundle, AllMoved, AppOk, Authorities;
    CastParts(p, mover, w, k, bundle);
    var g, r, app, host := p.Of(mover), p.Of(mover.Other()), w.Of(mover), w.Of(mover.Other());
    assert mover.Other().Other() == mover;
    StepHere(w, s);
    StepElsewhere(w, s, mover, 0);
    SafeAt(p, w, mover.Other());
    LoadedGeneration(r, g, host, app.bag, 0, IsAfter(g, app.bag.ca), w.clock);
    GenerationsDiffer(r, host.bag.units[0].bundle);
    OnlyRestartsLoad(s, host.locals[0], host.bag, app.bag, w.clock + 1);
    OldPresented(r, host.locals[0].loadedKey, s.bundle, c);
    AuthoritiesOf(g, bundle);
    AuthoritiesOf(g, next);
    LeaderOffers(host.locals[0], host.bag, app.bag, s);
  }

  lemma OldPresented(r: Generation, key: seq<Certificate>, next: seq<Certificate>, c: Certificate)
    requires GoodGeneration(r) && IsBefore(r, key) && IsAfter(r, next) && c in r.before && c !in r.after
    ensures c in Authorities(key) && c !in Members(next) && next != []
  {
    AuthoritiesOf(r, key);
    AuthoritiesOf(r, next);
    assert c.Authority?;
  }

  lemma LeaderOffers(l: Local, us: AppBag, them: AppBag, s: Step)
    requires s.CertificateStep? && Fits(s, us) && s.me == us.leader
    ensures BagAfter(s, l, us, them).ca == s.bundle && BagAfter(s, l, us, them).trust == us.trust
  {
  }

  /** Unit `k`'s certificate arrives, and its store is written from the new offer. */
  lemma Renewed(p: Plan, mover: Role, w: World, k: nat, s: Step, c: Certificate)
    requires WellFormedWorld(w) && GoodPlan(p) && Enabled(w, s) && s.CertificateStep? && s.role == mover && s.me == k
    requires Crossed(mover, w, k, s.bundle, c) && IsAfter(p.Of(mover), s.bundle) && c in p.Of(mover.Other()).before
    requires IsBefore(p.Of(mover), w.Of(mover).bag.units[k].bundle)
    ensures Bare(mover, Apply(w, s), k, s.bundle, c) && Apply(w, s).Of(mover.Other()) == w.Of(mover.Other())
    ensures Apply(w, s).Of(mover).bag.units[k].rotate
  {
    hide GoodPlan, IsBefore, IsAfter, Before, After, GoodGeneration, Apply, LocalAfter, BagAfter, Apart, Install,
      Authorities, Members, WellFormedApp;
    var g, r, app, them := p.Of(mover), p.Of(mover.Other()), w.Of(mover), w.Of(mover.Other()).bag;
    StepForms(w, s);
    StepHere(w, s);
    StepElsewhere(w, s, mover.Other(), 0);
    PlanFacts(p, mover);
    PlanParts(p, mover);
    CertificateShape(s, app.locals[k], app.bag, them, w.clock + 1);
    Rotating(app.locals[k], app.bag, them, s);
    var kept := if s.bundle[1] != app.bag.units[k].bundle[1] then app.bag.units[k].bundle else [];
    InstallTrusts(s.bundle, them.ca, kept, w.clock + 1);
    NotMine(r, g, app.bag.units[k].bundle, c);
    NotMineAfter(r, g, s.bundle, c);
    NoMember(c);
  }

  lemma NoMember(c: Certificate)
    ensures c !in Members([])
  {
  }

  lemma NotMineAfter(g: Generation, r: Generation, bundle: seq<Certificate>, c: Certificate)
    requires GoodGeneration(g) && Apart(r, g) && IsAfter(r, bundle) && (c in g.before || c in g.after)
    ensures c !in Members(bundle)
  {
    assert c.Authority?;
    hide GoodGeneration;
    forall i: nat | i < |bundle| ensures bundle[i] != c { OwnNotRemote(r, g, bundle, i); }
  }

  /** The gate is open: the pass asks for a restart, and adopts nothing but the new offer. */
  lemma PassesBare(mover: Role, w: World, k: nat, bundle: seq<Certificate>, s: Step, c: Certificate)
    requires WellFormedWorld(w) && Bare(mover, w, k, bundle, c) && Enabled(w, s)
    requires s.ConfigStep? && s.role == mover && s.me == k && w.Of(mover).bag.units[k].rotate
    ensures GateOpen(w.Of(mover).bag.units[k], w.Of(mover.Other()).bag)
    ensures Bare(mover, Apply(w, s), k, bundle, c) && Apply(w, s).Of(mover).locals[k].pending
    ensures Apply(w, s).Of(mover.Other()) == w.Of(mover.Other())
  {
    hide Apply, LocalAfter, BagAfter, Authorities, PeerPass, WellFormedApp;
    var app, them := w.Of(mover), w.Of(mover.Other()).bag;
    StepHere(w, s);
    StepElsewhere(w, s, mover.Other(), 0);
    StepBundles(s, app.locals[k], app.bag, them);
    OpenPass(app.locals[k], app.bag, them, s, w.clock + 1);
    PassAdds(app.locals[k].disk, them.ca, w.clock + 1);
  }

  lemma OpenPass(l: Local, us: AppBag, them: AppBag, s: Step, now: nat)
    requires s.ConfigStep? && Fits(s, us) && us.units[s.me].rotate && GateOpen(us.units[s.me], them) && them.ca != []
    ensures var r := LocalAfter(s, l, us, them, now); r.pending && r.disk == PeerPass(l.disk, them.ca, now)
  {
    hide PeerPass, PublishTrust, AnyRotating;
    PublishKeeps(l, us, s.me, false);
  }

  /** The restart: the gate is still open, and the two processes do not trust each other any more. */
  lemma LoadsBare(mover: Role, w: World, k: nat, bundle: seq<Certificate>, s: Step, c: Certificate)
    requires WellFormedWorld(w) && Bare(mover, w, k, bundle, c) && w.Of(mover).locals[k].pending
    requires s.RestartStep? && s.role == mover && s.me == k && Enabled(w, s)
    ensures GateOpen(w.Of(mover).bag.units[k], w.Of(mover.Other()).bag)
    ensures var r := Apply(w, s);
            && k < |r.Of(mover).locals| && |r.Of(mover.Other()).locals| == 1
            && !TrustEachOther(r.Of(mover).locals[k], r.Of(mover.Other()).locals[0])
  {
    hide Apply, LocalAfter, BagAfter, Authorities, WellFormedApp;
    var app, them := w.Of(mover), w.Of(mover.Other()).bag;
    StepHere(w, s);
    StepElsewhere(w, s, mover.Other(), 0);
    OnlyRestartsLoad(s, app.locals[k], app.bag, them, w.clock + 1);
    Untrusted(w.Of(mover.Other()).locals[0], Apply(w, s).Of(mover).locals[k], c);
  }

  /** The new bundles that the two units below get: both of the second generation. */
  ghost predicate Arrivals(p: Plan, mover: Role, w: World, k: nat, renewed: seq<Certificate>, next: seq<Certificate>)
    requires WellFormedWorld(w)
  {
    && GoodBundle(renewed) && IsAfter(p.Of(mover.Other()), renewed)
    && w.Of(mover.Other()).bag.units != [] && renewed[0] != w.Of(mover.Other()).bag.units[0].bundle[0]
    && GoodBundle(next) && IsAfter(p.Of(mover), next)
    && k < |w.Of(mover).bag.units| && next[0] != w.Of(mover).bag.units[k].bundle[0]
  }

  /** After these steps the gate is open for the unit. */
  ghost predicate OpenAfter(mover: Role, w: World, steps: seq<Step>, k: nat)
    requires WellFormedWorld(w)
  {
    && Runs(w, steps) && k < |Run(w, steps).Of(mover).bag.units|
    && GateOpen(Run(w, steps).Of(mover).bag.units[k], Run(w, steps).Of(mover.Other()).bag)
  }

  /** The gate looks after the unit's own new CA only.  When both applications renew, a unit that gets its
      certificate after the remote leader has moved on is installed from the new offer alone; it passes the open
      gate, restarts while the gate is still open, and does not trust the remote process any more, which
      presents an old CA that is being retired. */
  lemma OpenGateLosesOldCa(
      p: Plan, mover: Role, w: World, k: nat, bundle: seq<Certificate>, renewed: seq<Certificate>,
      next: seq<Certificate>, c: Certificate)
    returns (steps: seq<Step>)
    requires WellFormedWorld(w) && Stage(p, mover, w, k, bundle) && Arrivals(p, mover, w, k, renewed, next)
    requires c in p.Of(mover.Other()).before && c !in p.Of(mover.Other()).after
    ensures |steps| == 7 && Runs(w, steps) && MovingRun(p, w, steps) && forall s | s in steps :: !s.ElectStep?
    ensures steps[5] == ConfigStep(mover, k, false) && steps[6] == RestartStep(mover, k, true)
    ensures OpenAfter(mover, w, steps[..5], k) && OpenAfter(mover, w, steps[..6], k)
    ensures var end := Run(w, steps);
            && k < |end.Of(mover).locals| && |end.Of(mover.Other()).locals| == 1
            && !TrustEachOther(end.Of(mover).locals[k], end.Of(mover.Other()).locals[0])
  {
    hide Enabled, GoodPlan, GoodGeneration, IsBefore, IsAfter, Install, News, Apply, BagAfter, LocalAfter,
      Authorities, GoodBundle, Runs, Run, WellFormedApp, MovingRun, Moving, Cast, Stage, Crossed, Bare, GateOpen,
      TrustEachOther;
    Nothing(p, w);
    var s1 := Opening(p, mover, w, k, bundle);
    var w1 := Apply(w, s1);
    Extend(p, w, [], s1);
    steps := [] + [s1];
    var s2 := SecondStep(p, mover, w1, k, bundle);
    var w2 := Apply(w1, s2);
    Moves(p, w1, s2);
    Extend(p, w, steps, s2);
    steps := steps + [s2];
    var s3 := ThirdStep(p, mover, w2, k, bundle);
    var w3 := Apply(w2, s3);
    Moves(p, w2, s3);
    Extend(p, w, steps, s3);
    steps := steps + [s3];
    var s4 := CertificateStep(mover.Other(), 0, renewed);
    NewCertificate(p, w3, s4);
    HostMoves(p, mover, w3, k, bundle, s4, next, c);
    Extend(p, w, steps, s4);
    var w4 := Apply(w3, s4);
    steps := steps + [s4];
    var s5 := CertificateStep(mover, k, next);
    StillBefore(p, mover, w3, k, bundle);
    NewCertificate(p, w4, s5);
    Renewed(p, mover, w4, k, s5, c);
    Extend(p, w, steps, s5);
    var w5 := Apply(w4, s5);
    steps := steps + [s5];
    BareIn(mover, w5, k, next, c);
    var s6 := ConfigStep(mover, k, false);
    Passable(w5, s6);
    PassesBare(mover, w5, k, next, s6, c);
    var five := steps;
    assert OpenAfter(mover, w, five, k);
    Moves(p, w5, s6);
    Extend(p, w, steps, s6);
    var w6 := Apply(w5, s6);
    steps := steps + [s6];
    BareIn(mover, w6, k, next, c);
    var s7 := RestartStep(mover, k, true);
    QueuedRestart(w6, s7);
    LoadsBare(mover, w6, k, next, s7, c);
    var six := steps;
    assert OpenAfter(mover, w, six, k);
    hide OpenAfter;
    Moves(p, w6, s7);
    Extend(p, w, steps, s7);
    steps := steps + [s7];
    assert steps[..5] == five && steps[..6] == six;
  }

  lemma BareIn(mover: Role, w: World, k: nat, bundle: seq<Certificate>, c: Certificate)
    requires WellFormedWorld(w) && Bare(mover, w, k, bundle, c)
    ensures k < |w.Of(mover).bag.units| && k < |w.Of(mover).locals|
  {
  }

  lemma StillBefore(p: Plan, mover: Role, w: World, k: nat, bundle: seq<Certificate>)
    requires WellFormedWorld(w) && Cast(p, mover, w, k, bundle)
    ensures GoodPlan(p) && k < |w.Of(mover).bag.units| && IsBefore(p.Of(mover), w.Of(mover).bag.units[k].bundle)
  {
    hide GoodPlan, Trusting, IsBefore, IsAfter, Before;
  }
}
