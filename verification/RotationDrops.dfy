/** What a clean-up can drop: exactly when an `update_status` hook takes a CA certificate out of a store
    under which some process presents, whoever leads the applications, and why it never does when
    leadership is steady. */
module RotationDrops {
  import opened Truststore
  import opened Rotation
  import opened RotationSafety
  import opened RotationCleanup

  /** The guard at a unit on the second generation: all units of its application present under it. */
  lemma OwnSideMovedOn(g: Generation, us: AppBag, b: UnitBag, them: AppBag, me: nat, u: nat, x: Local)
    requires GoodGeneration(g) && me < |us.units| && u < |us.units| && b.bundle == us.units[me].bundle
    requires BothTrust(us, them, me) && IsAfter(g, b.bundle)
    requires us.units[u].published !! News(g) || IsAfter(g, x.loadedKey)
    ensures IsAfter(g, x.loadedKey)
  {
    var n :| n in News(g);
    AfterHolds(g, b.bundle, n);
    assert n in Authorities(b.bundle);
    TrustedByAllMeans(us.units, n);
  }

  lemma RemoteSideMovedOn(r: Generation, us: AppBag, them: AppBag, me: nat, u: nat, x: Local)
    requires GoodGeneration(r) && me < |us.units| && u < |them.units| && BagOk(r, them)
    requires BothTrust(us, them, me) && IsAfter(r, them.ca)
    requires them.units[u].published !! News(r) || IsAfter(r, x.loadedKey)
    ensures IsAfter(r, x.loadedKey)
  {
    var n :| n in News(r);
    AfterHolds(r, them.ca, n);
    assert n in Authorities(them.ca);
    assert n in them.trust * News(r);
  }

  lemma AfterHolds(g: Generation, bundle: seq<Certificate>, c: Certificate)
    requires IsAfter(g, bundle) && c in g.after
    ensures c in bundle
  {
    assert c in bundle[1..];
  }

  lemma BundleHolds(g: Generation, bundle: seq<Certificate>, c: Certificate)
    requires IsBefore(g, bundle) || IsAfter(g, bundle)
    ensures c in Authorities(bundle) ==>
              (c in g.before && IsBefore(g, bundle)) || (c in g.after && IsAfter(g, bundle))
    ensures c in g.before && IsBefore(g, bundle) ==> c in bundle
    ensures c in g.after && IsAfter(g, bundle) ==> c in bundle
  {
    assert bundle == [bundle[0]] + bundle[1..];
  }

  /** What an own process presents is in the unit's own bundle, as far as the store has it. */
  lemma PresentedOwn(g: Generation, r: Generation, l: Local, b: UnitBag, x: Local, ra: bool, c: Certificate)
    requires GoodGeneration(g) && Apart(g, r) && Stored(g, r, b.bundle, l.disk.trust, ra)
    requires IsBefore(g, x.loadedKey) || IsAfter(g, x.loadedKey)
    requires IsAfter(g, b.bundle) ==> IsAfter(g, x.loadedKey)
    requires c in Authorities(x.loadedKey) && c in l.disk.trust.Values
    ensures c in b.bundle
  {
    BundleHolds(g, x.loadedKey, c);
    BundleHolds(g, b.bundle, c);
    GenerationsDiffer(g, x.loadedKey);
    if c !in g.before { NewsMeansAfter(g, r, b.bundle, l.disk.trust, ra, c); }
  }

  /** What a remote process presents is in the remote offer, unless that is of the first generation and
      the process presents the second. */
  lemma PresentedRemote(r: Generation, ca: seq<Certificate>, x: Local, c: Certificate)
    requires IsBefore(r, ca) || IsAfter(r, ca)
    requires IsBefore(r, x.loadedKey) || IsAfter(r, x.loadedKey)
    requires IsAfter(r, ca) ==> IsAfter(r, x.loadedKey)
    requires GoodGeneration(r) && c in Authorities(x.loadedKey)
    ensures c in ca || (IsBefore(r, ca) && IsAfter(r, x.loadedKey) && c in News(r))
  {
    BundleHolds(r, x.loadedKey, c);
    BundleHolds(r, ca, c);
    GenerationsDiffer(r, x.loadedKey);
  }

  lemma NotIn(g: Generation, r: Generation, bundle: seq<Certificate>, ca: seq<Certificate>, c: Certificate)
    requires GoodGeneration(r) && Apart(g, r) && (IsBefore(g, bundle) || IsAfter(g, bundle))
    requires IsBefore(r, ca) && c in News(r)
    ensures c !in bundle && c !in ca
  {
    assert c.Authority?;
    hide GoodGeneration;
    if i: nat :| i < |bundle| && bundle[i] == c { OwnNotRemote(g, r, bundle, i); }
    if i: nat :| i < |ca| && ca[i] == c { BeforeAt(r, ca, i); }
  }

  // ---- The hook ----

  /** Process `u` of `who` presents under `c`, and the step takes `c` out of its unit's store. */
  ghost predicate Takes(w: World, s: Step, who: Role, u: nat, c: Certificate)
    requires WellFormedWorld(w) && Enabled(w, s)
  {
    && u < |w.Of(who).locals| && c in Authorities(w.Of(who).locals[u].loadedKey)
    && s.me < |w.Of(s.role).locals| && s.me < |Apply(w, s).Of(s.role).locals|
    && c in w.Of(s.role).locals[s.me].disk.trust.Values
    && c !in Apply(w, s).Of(s.role).locals[s.me].disk.trust.Values
  }

  ghost predicate TakesInUse(w: World, s: Step)
    requires WellFormedWorld(w) && Enabled(w, s)
  {
    exists who: Role, u: nat, c :: Takes(w, s, who, u, c)
  }

  /** The condition, to be read off before the hook: its pass will find the guard of the clean-up open, the
      remote offer is of the first generation while some remote process presents the second, and the
      store has some of its new CA. */
  ghost predicate Exposed(p: Plan, w: World, s: Step)
    requires WellFormedWorld(w) && Enabled(w, s) && s.StatusStep?
  {
    var r, app, remote := p.Of(s.role.Other()), w.Of(s.role), w.Of(s.role.Other());
    var pass := ConfigStep(s.role, s.me, s.properties);
    && s.me < |app.locals|
    && CleanupDue(LocalAfter(pass, app.locals[s.me], app.bag, remote.bag, w.clock + 1),
                  BagAfter(pass, app.locals[s.me], app.bag, remote.bag), remote.bag, s.me)
    && IsBefore(r, remote.bag.ca)
    && (exists u: nat :: u < |remote.locals| && IsAfter(r, remote.locals[u].loadedKey))
    && (exists c :: c in News(r) && c in app.locals[s.me].disk.trust.Values)
  }

  /** The facts about a unit's pass that both directions need. */
  lemma PassFacts(p: Plan, w: World, o: Offers, s: Step)
    requires GoodPlan(p) && WellFormedWorld(w) && Sound(p, w, o) && s.StatusStep? && Enabled(w, s)
    ensures var g, r, ra := p.Of(s.role), p.Of(s.role.Other()), o.Of(s.role.Other());
            var app, them := w.Of(s.role), w.Of(s.role.Other()).bag;
            var pass := ConfigStep(s.role, s.me, s.properties);
            && s.me < |app.locals| && Fits(s, app.bag) && GoodGeneration(g) && GoodGeneration(r)
            && Apart(g, r) && Apart(r, g) && (IsBefore(r, them.ca) || IsAfter(r, them.ca))
            && var passed, told := LocalAfter(pass, app.locals[s.me], app.bag, them, w.clock + 1),
                                   BagAfter(pass, app.locals[s.me], app.bag, them);
               && |told.units| == |app.bag.units| && told.units[s.me].bundle == app.bag.units[s.me].bundle
               && UnitOk(g, r, passed, told.units[s.me], ra, w.clock + 1)
               && passed.disk == PeerPass(app.locals[s.me].disk, them.ca, w.clock + 1)
               && passed.loadedKey == app.locals[s.me].loadedKey
               && Stored(g, r, app.bag.units[s.me].bundle, app.locals[s.me].disk.trust, ra)
               && Offer(r, them.ca, ra)
  {
    hide LocalAfter, BagAfter, GoodGeneration, Apart, IsBefore, IsAfter, Stored, BagOk, Coherent, News, PeerPass,
      Sound, Enabled, WellFormedWorld;
    var g, r, ra := p.Of(s.role), p.Of(s.role.Other()), o.Of(s.role.Other());
    var app, them := w.Of(s.role), w.Of(s.role.Other()).bag;
    var pass := ConfigStep(s.role, s.me, s.properties);
    StepForms(w, s);
    PlanFacts(p, s.role);
    StepReady(p, w, o, s);
    StatusPass(g, r, s, app.locals[s.me], app.bag, them, ra, w.clock);
    StepBundles(pass, app.locals[s.me], app.bag, them);
    PassDisk(pass, app.locals[s.me], app.bag, them, w.clock + 1, r, ra);
  }

  lemma PlanFacts(p: Plan, role: Role)
    requires GoodPlan(p)
    ensures GoodGeneration(p.Of(role)) && GoodGeneration(p.Of(role.Other()))
    ensures Apart(p.Of(role), p.Of(role.Other())) && Apart(p.Of(role.Other()), p.Of(role))
  {
  }

  lemma PassDisk(s: Step, l: Local, us: AppBag, them: AppBag, now: nat, r: Generation, ra: bool)
    requires s.ConfigStep? && Fits(s, us) && Offer(r, them.ca, ra)
    ensures LocalAfter(s, l, us, them, now).disk == PeerPass(l.disk, them.ca, now)
    ensures LocalAfter(s, l, us, them, now).loadedKey == l.loadedKey
  {
    hide PeerPass, HeldBack, PublishTrust;
    assert them.ca != [];
  }

  /** The hook leaves the unit's store as the pass does, or rebuilt if the clean-up is due. */
  lemma StoreAfter(p: Plan, w: World, o: Offers, s: Step, c: Certificate)
    requires GoodPlan(p) && WellFormedWorld(w) && Sound(p, w, o) && s.StatusStep? && Enabled(w, s)
    requires c.Authority? && s.me < |w.Of(s.role).locals| && c in w.Of(s.role).locals[s.me].disk.trust.Values
    ensures var app, them := w.Of(s.role), w.Of(s.role.Other()).bag;
            var pass := ConfigStep(s.role, s.me, s.properties);
            && s.me < |Apply(w, s).Of(s.role).locals| && Fits(pass, app.bag)
            && var passed, told := LocalAfter(pass, app.locals[s.me], app.bag, them, w.clock + 1),
                                   BagAfter(pass, app.locals[s.me], app.bag, them);
               && c in passed.disk.trust.Values && |told.units| == |app.bag.units|
               && (c in Apply(w, s).Of(s.role).locals[s.me].disk.trust.Values
                   <==> !CleanupDue(passed, told, them, s.me) || c in app.bag.units[s.me].bundle || c in them.ca)
  {
    hide LocalAfter, BagAfter, GoodGeneration, Apart, IsBefore, IsAfter, Stored, PeerPass, Offer, Apply, Enabled,
      CleanupDue, Rebuild, FilesHold, Sound, WellFormedWorld, OwnFiled, PeersFiled;
    var g, r, ra := p.Of(s.role), p.Of(s.role.Other()), o.Of(s.role.Other());
    var app, them := w.Of(s.role), w.Of(s.role.Other()).bag;
    var pass := ConfigStep(s.role, s.me, s.properties);
    PassFacts(p, w, o, s);
    StepHere(w, s);
    PassLosesNoAuthority(g, r, app.bag.units[s.me].bundle, app.locals[s.me].disk, them.ca, ra, w.clock + 1);
    StatusShape(s, app.locals[s.me], app.bag, them, w.clock + 1);
    var passed := LocalAfter(pass, app.locals[s.me], app.bag, them, w.clock + 1);
    RebuildExact(passed.disk, app.bag.units[s.me].bundle, them.ca, w.clock + 1);
  }

  /** When the guard is open: what some process presents and the store has is in the own bundle or on
      offer, unless the remote offer has gone back. */
  lemma GuardCovers(p: Plan, w: World, o: Offers, s: Step, who: Role, u: nat, c: Certificate)
    requires GoodPlan(p) && WellFormedWorld(w) && Sound(p, w, o) && s.StatusStep? && Enabled(w, s)
    requires u < |w.Of(who).locals| && c in Authorities(w.Of(who).locals[u].loadedKey)
    requires s.me < |w.Of(s.role).locals| && c in w.Of(s.role).locals[s.me].disk.trust.Values
    requires var app, them := w.Of(s.role), w.Of(s.role.Other()).bag;
             var pass := ConfigStep(s.role, s.me, s.properties);
             CleanupDue(LocalAfter(pass, app.locals[s.me], app.bag, them, w.clock + 1),
                        BagAfter(pass, app.locals[s.me], app.bag, them), them, s.me)
    ensures var r, app, remote := p.Of(s.role.Other()), w.Of(s.role), w.Of(s.role.Other());
            || c in app.bag.units[s.me].bundle || c in remote.bag.ca
            || (who == s.role.Other() && IsBefore(r, remote.bag.ca) && IsAfter(r, w.Of(who).locals[u].loadedKey)
                && c in News(r))
  {
    hide LocalAfter, BagAfter, GoodGeneration, Apart, IsBefore, IsAfter, Stored, PeerPass, Offer, Enabled, Sound,
      WellFormedWorld, Coherent, BothTrust, HasTemporary, News, Authorities;
    var g, r := p.Of(s.role), p.Of(s.role.Other());
    var app, remote, x := w.Of(s.role), w.Of(s.role.Other()), w.Of(who).locals[u];
    var pass := ConfigStep(s.role, s.me, s.properties);
    PassFacts(p, w, o, s);
    var told := BagAfter(pass, app.locals[s.me], app.bag, remote.bag);
    SoundAt(p, w, o, s.role);
    SoundAt(p, w, o, s.role.Other());
    assert s.role.Other().Other() == s.role;
    Sized(w, who);
    if who == s.role {
      StepBundles(pass, app.locals[s.me], app.bag, remote.bag);
      assert UnitOk(g, r, x, app.bag.units[u], o.Of(s.role.Other()), w.clock);
      assert told.units[u].published !! News(g) || IsAfter(g, x.loadedKey);
      if IsAfter(g, app.bag.units[s.me].bundle) {
        OwnSideMovedOn(g, told, app.bag.units[s.me], remote.bag, s.me, u, x);
      }
      BundleOk(g, r, x.loadedTrust, x.loadedKey, o.Of(s.role.Other()));
      PresentedOwn(g, r, app.locals[s.me], app.bag.units[s.me], x, o.Of(s.role.Other()), c);
    } else {
      assert who == s.role.Other();
      assert UnitOk(r, g, x, remote.bag.units[u], o.Of(s.role), w.clock);
      if IsAfter(r, remote.bag.ca) { RemoteSideMovedOn(r, told, remote.bag, s.me, u, x); }
      BundleOk(r, g, x.loadedTrust, x.loadedKey, o.Of(s.role));
      PresentedRemote(r, remote.bag.ca, x, c);
    }
  }

  lemma ExposedTakes(p: Plan, w: World, o: Offers, s: Step)
    requires GoodPlan(p) && WellFormedWorld(w) && Sound(p, w, o) && s.StatusStep? && Enabled(w, s) && Exposed(p, w, s)
    ensures TakesInUse(w, s)
  {
    hide LocalAfter, BagAfter, GoodGeneration, Apart, IsBefore, IsAfter, Stored, PeerPass, Offer, Enabled, Sound,
      WellFormedWorld, Coherent, CleanupDue, News, Authorities, Apply, UnitOk;
    var g, r := p.Of(s.role), p.Of(s.role.Other());
    var app, remote := w.Of(s.role), w.Of(s.role.Other());
    PassFacts(p, w, o, s);
    var c :| c in News(r) && c in app.locals[s.me].disk.trust.Values;
    var u: nat :| u < |remote.locals| && IsAfter(r, remote.locals[u].loadedKey);
    NewsPresented(r, remote.locals[u].loadedKey, c);
    StoreAfter(p, w, o, s, c);
    BundleOk(g, r, app.locals[s.me].disk.trust, app.bag.units[s.me].bundle, o.Of(s.role.Other()));
    NotIn(g, r, app.bag.units[s.me].bundle, remote.bag.ca, c);
    assert Takes(w, s, s.role.Other(), u, c);
  }

  lemma BundleOk(g: Generation, r: Generation, t: Trust, bundle: seq<Certificate>, ra: bool)
    requires Stored(g, r, bundle, t, ra)
    ensures IsBefore(g, bundle) || IsAfter(g, bundle)
  {
  }

  lemma NewsPresented(r: Generation, bundle: seq<Certificate>, c: Certificate)
    requires GoodGeneration(r) && IsAfter(r, bundle) && c in News(r)
    ensures c.Authority? && c in Authorities(bundle)
  {
    AfterHolds(r, bundle, c);
  }

  lemma TakesExposed(p: Plan, w: World, o: Offers, s: Step, who: Role, u: nat, c: Certificate)
    requires GoodPlan(p) && WellFormedWorld(w) && Sound(p, w, o) && s.StatusStep? && Enabled(w, s)
    requires Takes(w, s, who, u, c)
    ensures Exposed(p, w, s)
  {
    hide LocalAfter, BagAfter, GoodGeneration, Apart, IsBefore, IsAfter, Stored, PeerPass, Offer, Enabled, Sound,
      WellFormedWorld, Coherent, CleanupDue, News, Apply, UnitOk;
    assert c.Authority?;
    hide Authorities;
    PassFacts(p, w, o, s);
    StoreAfter(p, w, o, s, c);
    GuardCovers(p, w, o, s, who, u, c);
  }

  /** In every run within the plan, whoever leads: an `update_status` hook takes a CA certificate in use
      out of its unit's store if and only if the unit is exposed. */
  lemma StatusDropsExactly(p: Plan, w: World, steps: seq<Step>, s: Step)
    requires GoodPlan(p) && WellFormedWorld(w) && AtRest(p, w) && Runs(w, steps) && MovingRun(p, w, steps)
    requires s.StatusStep? && Enabled(Run(w, steps), s)
    ensures TakesInUse(Run(w, steps), s) <==> Exposed(p, Run(w, steps), s)
  {
    hide Apply, MovingRun, Runs, Run, Enabled, Sound, AtRest, GoodPlan, WellFormedWorld, Takes, Exposed;
    RestSafe(p, w);
    var o := RunSound(p, w, Offers(false, false), steps);
    var end := Run(w, steps);
    if Exposed(p, end, s) { ExposedTakes(p, end, o, s); }
    if who: Role, u: nat, c :| Takes(end, s, who, u, c) { TakesExposed(p, end, o, s, who, u, c); }
  }

  /** With steady leadership no unit is ever exposed: the new CA is in no store once it is off offer. */
  lemma SafeNotExposed(p: Plan, w: World, s: Step)
    requires GoodPlan(p) && WellFormedWorld(w) && Safe(p, w) && s.StatusStep? && Enabled(w, s)
    ensures !Exposed(p, w, s)
  {
    hide LocalAfter, BagAfter, GoodGeneration, Apart, IsBefore, IsAfter, Stored, CleanupDue, News, Coherent, BagOk,
      WellFormedWorld, Enabled;
    var g, r, app, remote := p.Of(s.role), p.Of(s.role.Other()), w.Of(s.role), w.Of(s.role.Other());
    PlanFacts(p, s.role);
    SafeAt(p, w, s.role);
    Sized(w, s.role);
    if Exposed(p, w, s) {
      var c :| c in News(r) && c in app.locals[s.me].disk.trust.Values;
      assert UnitOk(g, r, app.locals[s.me], app.bag.units[s.me], IsAfter(r, remote.bag.ca), w.clock);
      RemoteNewsMeansOffered(g, r, app.bag.units[s.me].bundle, app.locals[s.me].disk.trust, IsAfter(r, remote.bag.ca),
        c);
      GenerationsDiffer(r, remote.bag.ca);
    }
  }

  /** Clean-up safety over whole runs.  In every allowed run from rest, an `update_status` hook, with
      its pass and the rebuild that may follow, drops from its unit's truststore no CA certificate
      under which any unit of either application is presenting. */
  lemma StatusNeverDropsCaInUse(p: Plan, w: World, steps: seq<Step>, s: Step)
    requires GoodPlan(p) && WellFormedWorld(w) && AtRest(p, w) && Runs(w, steps) && AllowedRun(p, w, steps)
    requires s.StatusStep? && Enabled(Run(w, steps), s)
    ensures !TakesInUse(Run(w, steps), s)
  {
    hide Apply, Runs, Run, Enabled, AtRest, GoodPlan, WellFormedWorld, TakesInUse, Exposed, Moving;
    RestSafe(p, w);
    RunSafe(p, w, steps);
    SafeNotExposed(p, Run(w, steps), s);
    AllowedMoves(p, w, steps);
    StatusDropsExactly(p, w, steps, s);
  }

  lemma {:induction false} AllowedMoves(p: Plan, w: World, steps: seq<Step>)
    requires WellFormedWorld(w) && Runs(w, steps) && AllowedRun(p, w, steps)
    ensures MovingRun(p, w, steps)
    decreases |steps|
  {
    hide Apply, Enabled, WellFormedWorld, Moving;
    if steps != [] { AllowedMoves(p, w, steps[..|steps| - 1]); }
  }
}
