/** What holds in every state of every run of the rotation protocol: what a unit has published it had loaded
    as a whole, and the gate opens only on loaded trust. */
module RotationSafety {
  import opened Truststore
  import opened Rotation

  // ---- Published trust was loaded: no premise on the run ----

  /** The process is newer than the truststore only if it has loaded it. */
  ghost predicate Timed(l: Local, clock: nat) {
    && l.disk.modified <= clock && l.lastRestart <= clock
    && (l.lastRestart > l.disk.modified ==> l.loadedTrust == l.disk.trust && l.loadedKey == l.disk.keystore)
  }

  lemma LocalTimed(s: Step, l: Local, us: AppBag, them: AppBag, clock: nat)
    requires Fits(s, us) && Timed(l, clock)
    requires s.CertificateStep? || s.BrokenStep? ==> GoodBundle(s.bundle)
    requires s.StatusStep? ==> FilesHold(l.disk.files, us.units[s.me].bundle)
    ensures Timed(LocalAfter(s, l, us, them, clock + 1), clock + 1)
  {
    hide Members, HeldBack, PublishTrust, PeerPass, Install, Rebuild, CleanupDue, PassBag, FilesHold;
    var now := clock + 1;
    match s
    case CertificateStep(_, me, bundle) =>
      InstallTrusts(bundle, them.ca, if bundle[1] != us.units[me].bundle[1] then us.units[me].bundle else [], now);
    case BrokenStep(_, me, bundle) => InstallTrusts(bundle, them.ca, us.units[me].bundle, now);
    case ConfigStep(_, _, _) => PassTime(l.disk, them.ca, now);
    case RestartStep(_, _, _) =>
    case StatusStep(_, me, _) =>
      PassTime(l.disk, them.ca, now);
      PassFiles(l.disk, them.ca, us.units[me].bundle, now);
      RebuildExact(PeerPass(l.disk, them.ca, now), us.units[me].bundle, them.ca, now);
      if them.ca == [] { NoCleanup(l, PassBag(s.role, l, us, them, me), them, me); }
    case OfferStep(_, _) =>
    case ElectStep(_, _) =>
  }

  lemma NoCleanup(l: Local, us: AppBag, them: AppBag, me: nat)
    requires me < |us.units| && them.ca == []
    ensures !CleanupDue(l, us, them, me)
  {
  }

  lemma PassTime(d: Disk, remote: seq<Certificate>, now: nat)
    ensures PeerPass(d, remote, now) == d || PeerPass(d, remote, now).modified == now
  {
  }

  lemma PassFiles(d: Disk, remote: seq<Certificate>, bundle: seq<Certificate>, now: nat)
    requires FilesHold(d.files, bundle)
    ensures FilesHold(PeerPass(d, remote, now).files, bundle)
  {
  }

  /** What ties a unit's disk to its databag, whatever the run. */
  ghost predicate Coherent(l: Local, b: UnitBag, clock: nat) {
    Timed(l, clock) && l.disk.keystore == b.bundle && FilesHold(l.disk.files, b.bundle)
  }

  ghost predicate CoherentApp(app: App, clock: nat)
    requires WellFormedApp(app)
  {
    forall i: nat | i < |app.locals| :: Coherent(app.locals[i], app.bag.units[i], clock)
  }

  ghost predicate CoherentWorld(w: World)
    requires WellFormedWorld(w)
  {
    CoherentApp(w.broker, w.clock) && CoherentApp(w.controller, w.clock)
  }

  /** No step but a certificate event touches the keystore or the `bundle{i}.pem` files. */
  lemma LocalFiles(s: Step, l: Local, us: AppBag, them: AppBag, now: nat)
    requires Fits(s, us) && l.disk.keystore == us.units[s.me].bundle && FilesHold(l.disk.files, us.units[s.me].bundle)
    requires s.CertificateStep? || s.BrokenStep? ==> GoodBundle(s.bundle)
    ensures var d := LocalAfter(s, l, us, them, now).disk;
            var bundle := if s.CertificateStep? || s.BrokenStep? then s.bundle else us.units[s.me].bundle;
            d.keystore == bundle && FilesHold(d.files, bundle)
  {
    hide HeldBack, PublishTrust, PeerPass, Install, Rebuild, CleanupDue, PassBag, FilesHold;
    match s
    case CertificateStep(_, me, bundle) =>
      InstallExact(bundle, them.ca, if bundle[1] != us.units[me].bundle[1] then us.units[me].bundle else [], now);
    case BrokenStep(_, me, bundle) => InstallExact(bundle, them.ca, us.units[me].bundle, now);
    case ConfigStep(_, me, _) =>
      PassFiles(l.disk, them.ca, us.units[me].bundle, now);
      PassAdds(l.disk, them.ca, now);
    case RestartStep(_, _, _) =>
    case StatusStep(_, me, _) =>
      PassFiles(l.disk, them.ca, us.units[me].bundle, now);
      PassAdds(l.disk, them.ca, now);
      RebuildExact(PeerPass(l.disk, them.ca, now), us.units[me].bundle, them.ca, now);
      RebuildExact(l.disk, us.units[me].bundle, them.ca, now);
    case OfferStep(_, _) =>
    case ElectStep(_, _) =>
  }

  lemma LocalCoherent(s: Step, l: Local, us: AppBag, them: AppBag, clock: nat)
    requires Fits(s, us) && Coherent(l, us.units[s.me], clock)
    requires s.CertificateStep? || s.BrokenStep? ==> GoodBundle(s.bundle)
    ensures Coherent(LocalAfter(s, l, us, them, clock + 1), BagAfter(s, l, us, them).units[s.me], clock + 1)
  {
    hide BagAfter, LocalAfter, FilesHold, Timed;
    LocalTimed(s, l, us, them, clock);
    LocalFiles(s, l, us, them, clock + 1);
    StepBundles(s, l, us, them);
  }

  lemma StepCoherent(w: World, s: Step)
    requires WellFormedWorld(w) && CoherentWorld(w) && Enabled(w, s)
    ensures CoherentWorld(Apply(w, s))
  {
    hide BagAfter, LocalAfter, Coherent;
    var app, after := w.Of(s.role), Apply(w, s);
    LocalCoherent(s, app.locals[s.me], app.bag, w.Of(s.role.Other()).bag, w.clock);
    CoherentLater(w.Of(s.role.Other()), w.clock);
    forall i: nat | i < |app.locals|
      ensures Coherent(after.Of(s.role).locals[i], after.Of(s.role).bag.units[i], after.clock) {
      if i != s.me {
        StepElsewhere(w, s, s.role, i);
        CoherentLater(app, w.clock);
      }
    }
    assert CoherentApp(after.Of(s.role), after.clock);
    assert CoherentApp(after.Of(s.role.Other()), after.clock);
    if s.role.BrokerApp? {} else {}
  }

  lemma CoherentLater(app: App, clock: nat)
    requires WellFormedApp(app) && CoherentApp(app, clock)
    ensures CoherentApp(app, clock + 1)
  {
  }

  lemma {:induction false} RunCoherent(w: World, steps: seq<Step>)
    requires WellFormedWorld(w) && CoherentWorld(w) && Runs(w, steps)
    ensures CoherentWorld(Run(w, steps))
    decreases |steps|
  {
    if steps != [] {
      var n := |steps| - 1;
      RunCoherent(w, steps[..n]);
      StepCoherent(Run(w, steps[..n]), steps[n]);
    }
  }

  lemma {:induction false} RunPrefix(w: World, steps: seq<Step>, k: nat)
    requires WellFormedWorld(w) && Runs(w, steps) && k <= |steps|
    ensures Runs(w, steps[..k])
    decreases |steps|
  {
    if k == |steps| {
      assert steps[..k] == steps;
    } else {
      var n := |steps| - 1;
      RunPrefix(w, steps[..n], k);
      assert steps[..n][..k] == steps[..k];
    }
  }

  /** After the first `k` steps the unit had loaded exactly what it had published, namely `said`. */
  ghost predicate PublishedAt(
      w: World, steps: seq<Step>, k: nat, role: Role, me: nat, said: set<Certificate>)
    requires WellFormedWorld(w)
  {
    && k <= |steps| && Runs(w, steps[..k])
    && var app := Run(w, steps[..k]).Of(role);
       && me < |app.locals| && me < |app.bag.units|
       && app.bag.units[me].published == app.locals[me].loadedTrust.Values == said
  }

  /** At some moment of the run, the unit had loaded exactly what it had published, namely `said`. */
  ghost predicate OncePublished(w: World, steps: seq<Step>, role: Role, me: nat, said: set<Certificate>)
    requires WellFormedWorld(w)
  {
    exists k: nat :: PublishedAt(w, steps, k, role, me, said)
  }

  /** At some moment of the run, the unit had published what it had loaded, and had loaded all of `cs`. */
  ghost predicate OnceLoaded(w: World, steps: seq<Step>, role: Role, me: nat, cs: set<Certificate>)
    requires WellFormedWorld(w)
  {
    exists said :: cs <= said && OncePublished(w, steps, role, me, said)
  }

  /** A run may start from any coherent state in which published trust is loaded trust. */
  ghost predicate Honest(w: World)
    requires WellFormedWorld(w)
  {
    forall role: Role, i: nat | i < |w.Of(role).locals| ::
      && w.Of(role).bag.units[i].published == w.Of(role).locals[i].loadedTrust.Values
      && w.Of(role).bag.trust <= w.Of(role).bag.units[i].published
  }

  lemma PublishedLater(w: World, steps: seq<Step>, n: nat, role: Role, me: nat, said: set<Certificate>)
    requires WellFormedWorld(w) && n <= |steps| && OncePublished(w, steps[..n], role, me, said)
    ensures OncePublished(w, steps, role, me, said)
  {
    var k: nat :| PublishedAt(w, steps[..n], k, role, me, said);
    assert steps[..n][..k] == steps[..k];
    assert PublishedAt(w, steps, k, role, me, said);
  }

  lemma PublishedNow(w: World, steps: seq<Step>, role: Role, me: nat)
    requires WellFormedWorld(w) && Runs(w, steps)
    requires var app := Run(w, steps).Of(role);
             && me < |app.locals| && me < |app.bag.units|
             && app.bag.units[me].published == app.locals[me].loadedTrust.Values
    ensures OncePublished(w, steps, role, me, Run(w, steps).Of(role).bag.units[me].published)
  {
    assert steps[..|steps|] == steps;
    assert PublishedAt(w, steps, |steps|, role, me, Run(w, steps).Of(role).bag.units[me].published);
  }

  lemma LoadedLater(w: World, steps: seq<Step>, n: nat, role: Role, me: nat, cs: set<Certificate>)
    requires WellFormedWorld(w) && n <= |steps| && OnceLoaded(w, steps[..n], role, me, cs)
    ensures OnceLoaded(w, steps, role, me, cs)
  {
    hide OncePublished;
    var said :| cs <= said && OncePublished(w, steps[..n], role, me, said);
    PublishedLater(w, steps, n, role, me, said);
  }

  /** Publication writes what is loaded, on the forced path after a restart and on the path guarded
      by the timestamps alike. */
  lemma PublishesLoaded(l: Local, us: AppBag, me: nat, force: bool, clock: nat)
    requires WellFormed(us) && me < |us.units| && Timed(l, clock)
    requires force ==> l.loadedTrust == l.disk.trust
    ensures var r := PublishTrust(l, us, me, force);
            && (r.units[me].published == us.units[me].published || r.units[me].published == l.loadedTrust.Values)
            && (r.trust == us.trust || r.trust == TrustedByAll(r.units))
  {
  }

  lemma SamePublished(units: seq<UnitBag>, others: seq<UnitBag>)
    requires units != [] && |units| == |others|
    requires forall i: nat | i < |units| :: units[i].published == others[i].published
    ensures TrustedByAll(units) == TrustedByAll(others)
  {
    forall c ensures c in TrustedByAll(units) <==> c in TrustedByAll(others) {
      TrustedByAllMeans(units, c);
      TrustedByAllMeans(others, c);
    }
  }

  lemma TrustedByAllMeans(units: seq<UnitBag>, c: Certificate)
    requires units != []
    ensures c in TrustedByAll(units) <==> forall i: nat | i < |units| :: c in units[i].published
  {
    if forall i: nat | i < |units| :: c in units[i].published {
      assert c in units[0].published;
    }
  }

  /** The rest of a pass writes neither published trust nor the application's trust. */
  lemma PassTrust(role: Role, l: Local, us: AppBag, them: AppBag, me: nat)
    requires WellFormed(us) && me < |us.units|
    ensures var r := PassBag(role, l, us, them, me);
            var told := PublishTrust(l, us, me, false);
            && (forall i: nat | i < |us.units| ::
                  r.units[i].published == if them.ca == [] then us.units[i].published else told.units[i].published)
            && r.trust == if them.ca == [] then us.trust else told.trust
  {
    hide HeldBack, AnyRotating, PublishTrust;
  }

  lemma StepPublishes(s: Step, l: Local, us: AppBag, them: AppBag, clock: nat)
    requires Fits(s, us) && Timed(l, clock)
    ensures var r := BagAfter(s, l, us, them);
            var after := LocalAfter(s, l, us, them, clock + 1);
            && (r.units[s.me].published == us.units[s.me].published ||
               r.units[s.me].published == after.loadedTrust.Values)
            && (r.trust == us.trust || r.trust == TrustedByAll(r.units))
  {
    hide HeldBack, AnyRotating, PeerPass, Install, Rebuild, CleanupDue, TrustedByAll, PublishTrust, PassBag;
    if s.ConfigStep? || s.StatusStep? {
      PublishesLoaded(l, us, s.me, false, clock);
      PassTrust(s.role, l, us, them, s.me);
      SamePublished(PassBag(s.role, l, us, them, s.me).units,
                    if them.ca == [] then us.units else PublishTrust(l, us, s.me, false).units);
    }
    if s.RestartStep? {
      PublishAfterRestart(l, us, s.me);
    }
  }

  /** What a step publishes is on disk and loaded. */
  lemma PublishesStore(s: Step, l: Local, us: AppBag, them: AppBag, clock: nat)
    requires Fits(s, us) && Timed(l, clock)
    ensures var b2, l2 := BagAfter(s, l, us, them).units[s.me], LocalAfter(s, l, us, them, clock + 1);
            || b2.published == us.units[s.me].published
            || (b2.published == l.disk.trust.Values && l2.loadedTrust == l.disk.trust)
  {
    hide HeldBack, AnyRotating, PeerPass, Install, Rebuild, CleanupDue, TrustedByAll, PassBag, PublishTrust;
    PublishesDisk(l, us, s.me, false);
    PublishesDisk(l, us, s.me, true);
    if s.ConfigStep? || s.StatusStep? { PassTrust(s.role, l, us, them, s.me); }
  }

  lemma PublishesDisk(l: Local, us: AppBag, me: nat, force: bool)
    requires WellFormed(us) && me < |us.units|
    ensures var r := PublishTrust(l, us, me, force).units[me].published;
            r == us.units[me].published || (r == l.disk.trust.Values && (force || l.lastRestart > l.disk.modified))
  {
    hide TrustedByAll;
  }

  lemma PublishAfterRestart(l: Local, us: AppBag, me: nat)
    requires WellFormed(us) && me < |us.units|
    ensures var r := PublishTrust(l, us, me, true);
            && (r.units[me].published == us.units[me].published || r.units[me].published == l.disk.trust.Values)
            && (r.trust == us.trust || r.trust == TrustedByAll(r.units))
  {
  }

  /** A step touches the bag entry and the local state of its own unit only. */
  lemma StepElsewhere(w: World, s: Step, role: Role, i: nat)
    requires WellFormedWorld(w) && Enabled(w, s)
    ensures |Apply(w, s).Of(role).bag.units| == |w.Of(role).bag.units|
    ensures i < |w.Of(role).locals| && (role != s.role || i != s.me) ==>
              Apply(w, s).Of(role).bag.units[i] == w.Of(role).bag.units[i]
              && Apply(w, s).Of(role).locals[i] == w.Of(role).locals[i]
    ensures role != s.role ==> Apply(w, s).Of(role) == w.Of(role)
  {
    StepBundles(s, w.Of(s.role).locals[s.me], w.Of(s.role).bag, w.Of(s.role.Other()).bag);
    hide BagAfter, LocalAfter;
    if role != s.role { assert role == s.role.Other(); }
  }

  /** What a step leaves at the application that takes it. */
  lemma StepHere(w: World, s: Step)
    requires WellFormedWorld(w) && Enabled(w, s)
    ensures var app, after, them := w.Of(s.role), Apply(w, s).Of(s.role), w.Of(s.role.Other()).bag;
            && Fits(s, app.bag) && |app.locals| == |app.bag.units|
            && after.bag == BagAfter(s, app.locals[s.me], app.bag, them)
            && |after.locals| == |app.locals| == |after.bag.units|
            && after.locals[s.me] == LocalAfter(s, app.locals[s.me], app.bag, them, w.clock + 1)
            && (forall i: nat | i < |app.locals| && i != s.me ::
                  after.locals[i] == app.locals[i] && after.bag.units[i] == app.bag.units[i])
  {
    hide BagAfter, LocalAfter;
    forall i: nat | i < |w.Of(s.role).locals| && i != s.me
      ensures Apply(w, s).Of(s.role).locals[i] == w.Of(s.role).locals[i] &&
              Apply(w, s).Of(s.role).bag.units[i] == w.Of(s.role).bag.units[i]
    {
      StepElsewhere(w, s, s.role, i);
    }
  }

  lemma Sized(w: World, role: Role)
    requires WellFormedWorld(w)
    ensures |w.Of(role).locals| == |w.Of(role).bag.units| && WellFormed(w.Of(role).bag)
  {
  }

  /** At the application that takes a step, the unit's published set is as before or the truststore
      its process has loaded, and the application's trust as before or what all units publish. */
  lemma StepTells(w: World, s: Step)
    requires WellFormedWorld(w) && CoherentWorld(w) && Enabled(w, s)
    ensures var before, after := w.Of(s.role), Apply(w, s).Of(s.role);
            && |after.bag.units| == |before.bag.units| && |after.locals| == |before.locals| == |after.bag.units|
            && (after.bag.units[s.me].published == before.bag.units[s.me].published
                || after.bag.units[s.me].published == after.locals[s.me].loadedTrust.Values)
            && (after.bag.trust == before.bag.trust || after.bag.trust == TrustedByAll(after.bag.units))
  {
    hide BagAfter, LocalAfter, TrustedByAll, Timed, CoherentWorld, Apply, WellFormedWorld, Enabled;
    var app := w.Of(s.role);
    StepHere(w, s);
    TimedAt(w, s.role, s.me);
    StepPublishes(s, app.locals[s.me], app.bag, w.Of(s.role.Other()).bag, w.clock);
  }

  lemma TimedAt(w: World, role: Role, i: nat)
    requires WellFormedWorld(w) && CoherentWorld(w) && i < |w.Of(role).locals|
    ensures Timed(w.Of(role).locals[i], w.clock)
  {
    hide Timed, FilesHold;
    assert CoherentApp(w.Of(role), w.clock);
    assert Coherent(w.Of(role).locals[i], w.Of(role).bag.units[i], w.clock);
  }

  /** In every run, what a unit has published is, as a whole, what it had loaded at some moment at which
      it had published exactly that. */
  lemma {:induction false} PublishedWasLoaded(w: World, steps: seq<Step>, role: Role, me: nat)
    requires WellFormedWorld(w) && CoherentWorld(w) && Honest(w) && Runs(w, steps)
    requires me < |Run(w, steps).Of(role).bag.units|
    ensures OncePublished(w, steps, role, me, Run(w, steps).Of(role).bag.units[me].published)
    decreases |steps|
  {
    hide Apply, Enabled, CoherentWorld, Honest, OncePublished, WellFormedApp, TrustedByAll;
    Sized(Run(w, steps), role);
    if steps == [] {
      HonestAt(w, role, me);
      PublishedNow(w, steps, role, me);
    } else {
      var n := |steps| - 1;
      var before := Run(w, steps[..n]);
      var s := steps[n];
      RunCoherent(w, steps[..n]);
      StepElsewhere(before, s, role, me);
      StepTells(before, s);
      if before.Of(role).bag.units[me].published == Run(w, steps).Of(role).bag.units[me].published {
        PublishedWasLoaded(w, steps[..n], role, me);
        PublishedLater(w, steps, n, role, me, before.Of(role).bag.units[me].published);
      } else {
        PublishedNow(w, steps, role, me);
      }
    }
  }

  lemma HonestAt(w: World, role: Role, me: nat)
    requires WellFormedWorld(w) && Honest(w) && me < |w.Of(role).locals|
    ensures me < |w.Of(role).bag.units| &&
            w.Of(role).bag.units[me].published == w.Of(role).locals[me].loadedTrust.Values
    ensures w.Of(role).bag.trust <= w.Of(role).bag.units[me].published
  {
  }

  /** And what an application trusts, each of its units had loaded as a whole at one moment. */
  lemma {:induction false} TrustWasLoaded(w: World, steps: seq<Step>, role: Role, me: nat)
    requires WellFormedWorld(w) && CoherentWorld(w) && Honest(w) && Runs(w, steps)
    requires me < |Run(w, steps).Of(role).bag.units|
    ensures OnceLoaded(w, steps, role, me, Run(w, steps).Of(role).bag.trust)
    decreases |steps|
  {
    hide Apply, Enabled, CoherentWorld, Honest, OncePublished, WellFormedApp, TrustedByAll;
    var end := Run(w, steps);
    Sized(end, role);
    PublishedWasLoaded(w, steps, role, me);
    if steps == [] {
      HonestAt(w, role, me);
    } else {
      var n := |steps| - 1;
      var before := Run(w, steps[..n]);
      var s := steps[n];
      RunCoherent(w, steps[..n]);
      StepElsewhere(before, s, role, me);
      StepTells(before, s);
      if before.Of(role).bag.trust == end.Of(role).bag.trust {
        TrustWasLoaded(w, steps[..n], role, me);
        LoadedLater(w, steps, n, role, me, end.Of(role).bag.trust);
      } else {
        forall c | c in end.Of(role).bag.trust ensures c in end.Of(role).bag.units[me].published {
          TrustedByAllMeans(end.Of(role).bag.units, c);
        }
      }
    }
  }

  /** The gate, over every run, whatever happens in it: when it is open for a unit, every remote unit has
      had all CA certificates of its bundle loaded at one moment, at which it had published exactly its
      loaded truststore. */
  lemma GateOpensOnLoadedTrust(w: World, steps: seq<Step>, role: Role, me: nat, v: nat)
    requires WellFormedWorld(w) && CoherentWorld(w) && Honest(w) && Runs(w, steps)
    requires me < |Run(w, steps).Of(role).bag.units| && v < |Run(w, steps).Of(role.Other()).bag.units|
    requires GateOpen(Run(w, steps).Of(role).bag.units[me], Run(w, steps).Of(role.Other()).bag)
    ensures OnceLoaded(w, steps, role.Other(), v, Authorities(Run(w, steps).Of(role).bag.units[me].bundle))
  {
    hide OncePublished, CoherentWorld, Honest, Runs, Run;
    TrustWasLoaded(w, steps, role.Other(), v);
  }
}
