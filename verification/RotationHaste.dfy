/** Restarts that are allowed by the gate.  What the gate looks after is the unit's own new CA; whether the
    unit has kept the remote side's old CA depends on the certificate events that it met. */
module RotationHaste {
  import opened Truststore
  import opened Rotation
  import opened RotationSafety
  import opened RotationCleanup
  import opened RotationGate
  import opened RotationTrust
  import opened RotationDeadlock

  // ---- Which stores lack the remote side's old CA ----

  /** Step `k` of the run is a certificate event at the unit while the remote side offers its new CA: the
      store is written afresh, from that offer. */
  ghost predicate Meets(p: Plan, w: World, steps: seq<Step>, role: Role, me: nat, k: nat)
    requires WellFormedWorld(w)
  {
    && k < |steps| && Runs(w, steps[..k])
    && (steps[k].CertificateStep? || steps[k].BrokenStep?) && steps[k].role == role && steps[k].me == me
    && IsAfter(p.Of(role.Other()), Run(w, steps[..k]).Of(role.Other()).bag.ca)
  }

  ghost predicate MetNewOffer(p: Plan, w: World, steps: seq<Step>, role: Role, me: nat)
    requires WellFormedWorld(w)
  {
    exists k: nat :: Meets(p, w, steps, role, me, k)
  }

  /** Some process of the application presents its old CA. */
  ghost predicate SomeOld(r: Generation, app: App) {
    exists v: nat :: v < |app.locals| && IsBefore(r, app.locals[v].loadedKey)
  }

  /** What the store holds of the remote side's old CA certificates. */
  ghost predicate OldKept(r: Generation, l: Local, met: bool) {
    Before(r) * l.disk.trust.Values == if met then Before(r) * After(r) else Before(r)
  }

  lemma MeetsPrefix(p: Plan, w: World, steps: seq<Step>, role: Role, me: nat, n: nat)
    requires WellFormedWorld(w) && n == |steps| - 1
    ensures MetNewOffer(p, w, steps, role, me) <==>
              MetNewOffer(p, w, steps[..n], role, me) || Meets(p, w, steps, role, me, n)
  {
    hide Run, Runs, WellFormedWorld, IsAfter;
    forall k: nat | k < n ensures Meets(p, w, steps, role, me, k) <==> Meets(p, w, steps[..n], role, me, k) {
      assert steps[..n][..k] == steps[..k];
    }
  }

  lemma OfferHolds(r: Generation, ca: seq<Certificate>)
    requires GoodGeneration(r)
    ensures IsBefore(r, ca) ==> Before(r) <= Members(ca)
    ensures IsAfter(r, ca) ==> Before(r) * Members(ca) == Before(r) * After(r)
  {
    hide IsBefore, IsAfter, GoodGeneration;
    AuthoritiesOf(r, ca);
    BeforeAuthorities(r);
  }

  lemma OwnApart(g: Generation, r: Generation, bundle: seq<Certificate>)
    requires GoodGeneration(r) && Apart(g, r) && (IsBefore(g, bundle) || IsAfter(g, bundle))
    ensures Before(r) !! Members(bundle)
  {
    BeforeAuthorities(r);
    hide GoodGeneration, IsBefore, IsAfter, Apart;
    forall i: nat | i < |bundle| ensures bundle[i] !in Before(r) { OwnNotRemote(g, r, bundle, i); }
  }

  /** A certificate event leaves of the remote side what is on offer. */
  lemma CertificateOld(g: Generation, r: Generation, s: Step, l: Local, us: AppBag, them: AppBag, ra: bool, clock: nat)
    requires Ready(g, r, s, l, us, them, ra, clock)
    requires (s.CertificateStep? || s.BrokenStep?) && |s.bundle| >= 2
    ensures OldKept(r, LocalAfter(s, l, us, them, clock + 1), IsAfter(r, them.ca))
  {
    hide BagAfter, LocalAfter, BagOk, GoodGeneration, Apart, IsAfter, IsBefore, Coherent, Stored, Install, Members,
      Before, After;
    var b := us.units[s.me];
    var kept := if s.BrokenStep? || s.bundle[1] != b.bundle[1] then b.bundle else [];
    CertificateShape(s, l, us, them, clock + 1);
    InstallTrusts(s.bundle, them.ca, kept, clock + 1);
    OfferHolds(r, them.ca);
    OwnApart(g, r, s.bundle);
    StoredBundle(g, r, b.bundle, l.disk.trust, ra);
    OwnApart(g, r, b.bundle);
    assert Members([]) == {} by { NoMembers(); }
  }

  lemma NoMembers()
    ensures Members([]) == {}
  {
  }

  /** Any other hook leaves of the remote side's old CA what there was, as long as no clean-up goes by the new
      offer. */
  lemma OtherOld(
      g: Generation, r: Generation, s: Step, l: Local, us: AppBag, them: AppBag, ra: bool, clock: nat, met: bool)
    requires Ready(g, r, s, l, us, them, ra, clock) && !s.CertificateStep? && !s.BrokenStep?
    requires (met ==> IsAfter(r, them.ca)) && OldKept(r, l, met)
    requires s.StatusStep? ==>
               var pass := ConfigStep(s.role, s.me, s.properties);
               var passed, told := LocalAfter(pass, l, us, them, clock + 1), BagAfter(pass, l, us, them);
               CleanupDue(passed, told, them, s.me) ==> IsBefore(r, them.ca)
    ensures OldKept(r, LocalAfter(s, l, us, them, clock + 1), met)
  {
    hide BagAfter, LocalAfter, BagOk, GoodGeneration, Apart, IsAfter, IsBefore, Coherent, Stored, Members, Before,
      After, CleanupDue, Offer;
    BeforeAuthorities(r);
    OfferHolds(r, them.ca);
    StoredBundle(g, r, us.units[s.me].bundle, l.disk.trust, ra);
    OwnApart(g, r, us.units[s.me].bundle);
    if s.StatusStep? {
      var pass := ConfigStep(s.role, s.me, s.properties);
      var passed, told := LocalAfter(pass, l, us, them, clock + 1), BagAfter(pass, l, us, them);
      if CleanupDue(passed, told, them, s.me) {
        OfferCovers(r, passed.disk.trust, told.units[s.me].bundle, them.ca);
      }
    }
    StepStores(g, r, s, l, us, them, ra, clock, Before(r));
    ReadyFiles(g, r, s, l, us, them, ra, clock);
    if s.ElectStep? {
      ElectLocal(s, l, us, them, clock + 1);
    } else {
      StoreSources(s, l, us, them, clock + 1);
    }
  }

  lemma OfferCovers(r: Generation, t: Trust, bundle: seq<Certificate>, ca: seq<Certificate>)
    requires GoodGeneration(r) && IsBefore(r, ca)
    ensures Covered(Before(r), t, bundle, ca)
  {
    hide IsBefore, GoodGeneration;
    AuthoritiesOf(r, ca);
  }

  lemma ElectLocal(s: Step, l: Local, us: AppBag, them: AppBag, now: nat)
    requires s.ElectStep? && Fits(s, us)
    ensures LocalAfter(s, l, us, them, now) == l
  {
  }

  /** Processes do not go back to the old CA, and neither do offers. */
  lemma OldBack(p: Plan, w: World, s: Step, role: Role)
    requires GoodPlan(p) && WellFormedWorld(w) && Safe(p, w) && Enabled(w, s) && Allowed(p, w, s)
    ensures SomeOld(p.Of(role), Apply(w, s).Of(role)) ==> SomeOld(p.Of(role), w.Of(role))
    ensures IsAfter(p.Of(role), w.Of(role).bag.ca) ==> IsAfter(p.Of(role), Apply(w, s).Of(role).bag.ca)
  {
    hide BagAfter, LocalAfter, Apply, GoodPlan, Safe, IsAfter, IsBefore, GoodGeneration, Apart, AppOk, Stored, BagOk;
    StepForms(w, s);
    StepHere(w, s);
    StepElsewhere(w, s, s.role.Other(), 0);
    SafeReady(p, w, s);
    SafeAt(p, w, s.role);
    if role != s.role {
      assert role == s.role.Other();
    } else {
      var g, app, them := p.Of(role), w.Of(role), w.Of(role.Other()).bag;
      OfferStays(g, s, app.locals[s.me], app.bag, them);
      OnlyRestartsLoad(s, app.locals[s.me], app.bag, them, w.clock + 1);
      LoadedGeneration(g, p.Of(role.Other()), app, them, s.me, IsAfter(p.Of(role.Other()), them.ca), w.clock);
      GenerationsDiffer(g, app.bag.units[s.me].bundle);
      if v: nat :| v < |Apply(w, s).Of(role).locals| && IsBefore(g, Apply(w, s).Of(role).locals[v].loadedKey) {
        assert v < |app.locals| && IsBefore(g, app.locals[v].loadedKey);
      }
    }
  }

  /** The facts about the unit that takes the step, and what a clean-up at it would mean. */
  lemma CleanupOld(p: Plan, w: World, s: Step)
    requires GoodPlan(p) && WellFormedWorld(w) && Safe(p, w) && Enabled(w, s) && Allowed(p, w, s) && s.StatusStep?
    requires SomeOld(p.Of(s.role.Other()), w.Of(s.role.Other()))
    ensures var app, them := w.Of(s.role), w.Of(s.role.Other()).bag;
            var pass := ConfigStep(s.role, s.me, s.properties);
            && Fits(s, app.bag) && Fits(pass, app.bag) && s.me < |app.locals|
            && var passed, told := LocalAfter(pass, app.locals[s.me], app.bag, them, w.clock + 1),
                                   BagAfter(pass, app.locals[s.me], app.bag, them);
               CleanupDue(passed, told, them, s.me) ==> IsBefore(p.Of(s.role.Other()), them.ca)
  {
    hide BagAfter, LocalAfter, GoodPlan, Safe, IsAfter, IsBefore, GoodGeneration, Apart, AppOk, CleanupDue, BagOk,
      WellFormedApp, Ready;
    var r, app, remote := p.Of(s.role.Other()), w.Of(s.role), w.Of(s.role.Other());
    var pass := ConfigStep(s.role, s.me, s.properties);
    StepForms(w, s);
    SafeAt(p, w, s.role.Other());
    PlanParts(p, s.role);
    Formed(w, s.role.Other());
    OfferKnown(p, w, s.role.Other());
    var passed, told := LocalAfter(pass, app.locals[s.me], app.bag, remote.bag, w.clock + 1),
                        BagAfter(pass, app.locals[s.me], app.bag, remote.bag);
    if CleanupDue(passed, told, remote.bag, s.me) && IsAfter(r, remote.bag.ca) {
      assert s.role.Other().Other() == s.role;
      CleanupAfterMove(r, p.Of(s.role), remote, app.bag, told, s.me, passed, IsAfter(p.Of(s.role), app.bag.ca),
        w.clock);
      var v: nat :| v < |remote.locals| && IsBefore(r, remote.locals[v].loadedKey);
      GenerationsDiffer(r, remote.locals[v].loadedKey);
    }
  }

  lemma OfferKnown(p: Plan, w: World, role: Role)
    requires WellFormedWorld(w) && Safe(p, w)
    ensures IsBefore(p.Of(role), w.Of(role).bag.ca) || IsAfter(p.Of(role), w.Of(role).bag.ca)
  {
    hide IsBefore, IsAfter, UnitOk, Safe, WellFormedApp;
    SafeAt(p, w, role);
  }

  lemma OwnOldStep(p: Plan, w: World, s: Step, met: bool)
    requires GoodPlan(p) && WellFormedWorld(w) && Safe(p, w) && Enabled(w, s) && Allowed(p, w, s)
    requires SomeOld(p.Of(s.role.Other()), w.Of(s.role.Other())) && s.me < |w.Of(s.role).locals|
    requires met ==> IsAfter(p.Of(s.role.Other()), w.Of(s.role.Other()).bag.ca)
    requires OldKept(p.Of(s.role.Other()), w.Of(s.role).locals[s.me], met)
    ensures s.me < |Apply(w, s).Of(s.role).locals|
    ensures var now := met || ((s.CertificateStep? || s.BrokenStep?)
                               && IsAfter(p.Of(s.role.Other()), w.Of(s.role.Other()).bag.ca));
            OldKept(p.Of(s.role.Other()), Apply(w, s).Of(s.role).locals[s.me], now)
  {
    hide BagAfter, LocalAfter, Apply, Enabled, Allowed, GoodPlan, Safe, IsAfter, IsBefore, OldKept, Ready, CleanupDue,
      SomeOld, WellFormedApp;
    var g, r, app, them := p.Of(s.role), p.Of(s.role.Other()), w.Of(s.role), w.Of(s.role.Other()).bag;
    StepForms(w, s);
    StepHere(w, s);
    SafeReady(p, w, s);
    if s.CertificateStep? || s.BrokenStep? {
      CertificateOld(g, r, s, app.locals[s.me], app.bag, them, IsAfter(r, them.ca), w.clock);
    } else {
      if s.StatusStep? { CleanupOld(p, w, s); }
      OtherOld(g, r, s, app.locals[s.me], app.bag, them, IsAfter(r, them.ca), w.clock, met);
    }
  }

  /** In every allowed run, while some remote process presents its old CA: a store has lost of it what the new
      one does not have if and only if it met a certificate event with the new offer. */
  lemma {:induction false} OldKeptRun(p: Plan, w: World, steps: seq<Step>, role: Role, me: nat)
    requires GoodPlan(p) && WellFormedWorld(w) && AtRest(p, w) && Runs(w, steps) && AllowedRun(p, w, steps)
    requires me < |Run(w, steps).Of(role).locals|
    ensures MetNewOffer(p, w, steps, role, me) ==>
              IsAfter(p.Of(role.Other()), Run(w, steps).Of(role.Other()).bag.ca)
    ensures SomeOld(p.Of(role.Other()), Run(w, steps).Of(role.Other())) ==>
              OldKept(p.Of(role.Other()), Run(w, steps).Of(role).locals[me], MetNewOffer(p, w, steps, role, me))
    decreases |steps|
  {
    hide Apply, Enabled, Allowed, GoodPlan, Safe, IsAfter, OldKept, SomeOld, AtRest, WellFormedApp, Meets;
    if steps == [] {
      assert !MetNewOffer(p, w, steps, role, me) by { NothingMet(p, w, role, me); }
      RestOld(p, w, role, me);
    } else {
      var n := |steps| - 1;
      var before, s := Run(w, steps[..n]), steps[n];
      Formed(before, role);
      Formed(Run(w, steps), role);
      StepElsewhere(before, s, role, me);
      OldKeptRun(p, w, steps[..n], role, me);
      RestSafe(p, w);
      RunSafe(p, w, steps[..n]);
      OldBack(p, before, s, role.Other());
      MeetsPrefix(p, w, steps, role, me, n);
      MeetsNow(p, w, steps, role, me, n);
      if s.role == role && s.me == me && SomeOld(p.Of(role.Other()), Run(w, steps).Of(role.Other())) {
        OwnOldStep(p, before, s, MetNewOffer(p, w, steps[..n], role, me));
      }
    }
  }

  lemma NothingMet(p: Plan, w: World, role: Role, me: nat)
    requires WellFormedWorld(w)
    ensures !MetNewOffer(p, w, [], role, me)
  {
  }

  lemma MeetsNow(p: Plan, w: World, steps: seq<Step>, role: Role, me: nat, n: nat)
    requires WellFormedWorld(w) && n < |steps| && Runs(w, steps[..n])
    ensures Meets(p, w, steps, role, me, n) <==>
              && (steps[n].CertificateStep? || steps[n].BrokenStep?) && steps[n].role == role && steps[n].me == me
              && IsAfter(p.Of(role.Other()), Run(w, steps[..n]).Of(role.Other()).bag.ca)
  {
    hide Run, Runs, IsAfter, WellFormedWorld;
  }

  lemma RestOld(p: Plan, w: World, role: Role, me: nat)
    requires GoodPlan(p) && WellFormedWorld(w) && AtRest(p, w) && me < |w.Of(role).locals|
    ensures OldKept(p.Of(role.Other()), w.Of(role).locals[me], false)
  {
    hide GoodPlan, GoodGeneration, RestUnit, IsBefore, Before, Install;
    PlanParts(p, role);
    assert RestBag(p.Of(role.Other()), w.Of(role.Other()).bag);
    assert RestUnit(p.Of(role), w.Of(role).locals[me], w.Of(role).bag.units[me], w.Of(role.Other()).bag, w.clock);
    RestUnitTrusts(p.Of(role), p.Of(role.Other()), w.Of(role).locals[me], w.Of(role).bag.units[me],
                   w.Of(role.Other()).bag, w.clock);
  }

  // ---- The gate and the restart ----

  /** The remote side's old CA has a certificate that the new one does not have. */
  predicate Retires(r: Generation) { !(Before(r) <= After(r)) }

  /** What an open gate says of each remote process. */
  lemma GateAllowsRestart(p: Plan, w: World, s: Step, v: nat)
    requires GoodPlan(p) && WellFormedWorld(w) && Telling(p, w) && s.me < |w.Of(s.role).bag.units|
    requires v < |w.Of(s.role.Other()).locals| && IsAfter(p.Of(s.role), w.Of(s.role).bag.units[s.me].bundle)
    requires GateOpen(w.Of(s.role).bag.units[s.me], w.Of(s.role.Other()).bag)
    ensures After(p.Of(s.role)) <= w.Of(s.role.Other()).locals[v].loadedTrust.Values
  {
    hide GoodPlan, Safe, IsAfter, After, Authorities;
    var remote := w.Of(s.role.Other());
    TellingAt(p, w, s.role.Other());
    Formed(w, s.role.Other());
    assert s.role.Other().Other() == s.role;
    PlanParts(p, s.role);
    AuthoritiesOf(p.Of(s.role), w.Of(s.role).bag.units[s.me].bundle);
    assert UnitTells(After(p.Of(s.role)), remote.locals[v], remote.bag.units[v], remote.bag.trust);
  }

  /** A restart of a unit that presents its old CA, or that the gate is open for. */
  ghost predicate ByGate(p: Plan, w: World, s: Step)
    requires WellFormedWorld(w) && Enabled(w, s) && s.RestartStep?
  {
    var b := w.Of(s.role).bag.units[s.me];
    IsBefore(p.Of(s.role), b.bundle) || GateOpen(b, w.Of(s.role.Other()).bag)
  }

  /** Such a restart is hasty exactly when the store lacks the old CA under which some remote process presents. */
  lemma HastyByGate(p: Plan, w: World, s: Step)
    requires GoodPlan(p) && WellFormedWorld(w) && Telling(p, w) && Enabled(w, s) && s.RestartStep? && ByGate(p, w, s)
    ensures s.me < |w.Of(s.role).locals|
    ensures var r := p.Of(s.role.Other());
            Hasty(p, w, s) <==> SomeOld(r, w.Of(s.role.Other()))
                                && !(Before(r) <= w.Of(s.role).locals[s.me].disk.trust.Values)
  {
    hide GoodPlan, Telling, GoodGeneration, IsBefore, IsAfter, Before, After, GateOpen;
    var g, r, app, remote := p.Of(s.role), p.Of(s.role.Other()), w.Of(s.role), w.Of(s.role.Other());
    Formed(w, s.role);
    PlanParts(p, s.role);
    GenerationsDiffer(g, app.bag.units[s.me].bundle);
    forall v: nat | v < |remote.locals| && IsAfter(g, app.bag.units[s.me].bundle)
      ensures After(g) <= remote.locals[v].loadedTrust.Values
    {
      GateAllowsRestart(p, w, s, v);
    }
  }

  /** In every allowed run: a restart that the gate has nothing against breaks mutual trust if and only if some
      remote process presents an old CA that is being retired, and the unit's store was written afresh, by a
      certificate event, from the offer that had replaced it. */
  lemma GateRestartBreaksExactly(p: Plan, w: World, steps: seq<Step>, s: Step)
    requires GoodPlan(p) && WellFormedWorld(w) && AtRest(p, w) && Runs(w, steps) && AllowedRun(p, w, steps)
    requires AllTrust(Run(w, steps)) && Enabled(Run(w, steps), s) && s.RestartStep? && ByGate(p, Run(w, steps), s)
    ensures var r := p.Of(s.role.Other());
            !AllTrust(Apply(Run(w, steps), s)) <==>
              && SomeOld(r, Run(w, steps).Of(s.role.Other())) && Retires(r)
              && MetNewOffer(p, w, steps, s.role, s.me)
  {
    hide Run, Runs, AllowedRun, AtRest, GoodPlan, Telling, Apply, Enabled, AllTrust, Hasty, ByGate, SomeOld, Before,
      After, MetNewOffer, WellFormedApp;
    RestTelling(p, w);
    RunTelling(p, w, steps);
    RestartAllowed(p, Run(w, steps), s);
    TrustBreaksExactly(p, w, steps, s);
    HastyByGate(p, Run(w, steps), s);
    OldKeptRun(p, w, steps, s.role, s.me);
    var r, l, met := p.Of(s.role.Other()), Run(w, steps).Of(s.role).locals[s.me],
      MetNewOffer(p, w, steps, s.role, s.me);
    if OldKept(r, l, met) { OldLacks(r, l, met); }
  }

  lemma OldLacks(r: Generation, l: Local, met: bool)
    requires OldKept(r, l, met)
    ensures Before(r) <= l.disk.trust.Values <==> !(met && Retires(r))
  {
    var was, next, held := Before(r), After(r), l.disk.trust.Values;
    hide Before, After;
    if was <= held { assert was * held == was; }
    if was <= next { assert was * next == was; }
    assert was * next <= next && was * held <= held;
  }

  lemma RestartAllowed(p: Plan, w: World, s: Step)
    requires WellFormedWorld(w) && Enabled(w, s) && s.RestartStep?
    ensures Allowed(p, w, s)
  {
  }

  // ---- Runs in which no restart goes past the gate ----

  /** No certificate meets a queued restart, and no rotating broker passes the shut gate by its exemption. */
  ghost predicate Gated(w: World, s: Step)
    requires WellFormedWorld(w) && Enabled(w, s)
  {
    var b, them := w.Of(s.role).bag.units[s.me], w.Of(s.role.Other()).bag;
    && (s.CertificateStep? || s.BrokenStep? ==> s.me < |w.Of(s.role).locals| && !w.Of(s.role).locals[s.me].pending)
    && ((s.ConfigStep? || s.StatusStep?) && s.role.BrokerApp? && b.rotate && them.rotating ==> GateOpen(b, them))
  }

  ghost predicate GatedRun(p: Plan, w: World, steps: seq<Step>)
    requires WellFormedWorld(w) && Runs(w, steps)
    decreases |steps|
  {
    steps == [] || (var n := |steps| - 1;
                    && GatedRun(p, w, steps[..n])
                    && Gated(Run(w, steps[..n]), steps[n]) && Allowed(p, Run(w, steps[..n]), steps[n]))
  }

  /** A unit of the second generation that has passed the gate, or asked for a restart, is trusted. */
  ghost predicate Cleared(g: Generation, l: Local, b: UnitBag, trust: set<Certificate>) {
    IsAfter(g, b.bundle) && (!b.rotate || l.pending) ==> After(g) <= trust
  }

  ghost predicate AppCleared(g: Generation, app: App, trust: set<Certificate>)
    requires WellFormedApp(app)
  {
    forall i: nat | i < |app.locals| :: Cleared(g, app.locals[i], app.bag.units[i], trust)
  }

  ghost predicate AllCleared(p: Plan, w: World)
    requires WellFormedWorld(w)
  {
    && AppCleared(p.broker, w.broker, w.controller.bag.trust)
    && AppCleared(p.controller, w.controller, w.broker.bag.trust)
  }

  lemma ClearedParts(p: Plan, w: World, role: Role)
    requires WellFormedWorld(w)
    ensures WellFormedApp(w.Of(role)) && WellFormedApp(w.Of(role.Other()))
    ensures AllCleared(p, w) <==>
              && AppCleared(p.Of(role), w.Of(role), w.Of(role.Other()).bag.trust)
              && AppCleared(p.Of(role.Other()), w.Of(role.Other()), w.Of(role).bag.trust)
  {
    hide AppCleared, WellFormedApp;
    if role.BrokerApp? {} else {}
  }

  lemma GateOfAfter(g: Generation, b: UnitBag, them: AppBag)
    requires GoodGeneration(g) && IsAfter(g, b.bundle)
    ensures GateOpen(b, them) <==> After(g) <= them.trust
  {
    hide GoodGeneration, IsAfter, After;
    AuthoritiesOf(g, b.bundle);
  }

  /** A pass, with or without its clean-up. */
  lemma PassCleared(g: Generation, s: Step, l: Local, us: AppBag, them: AppBag, now: nat)
    requires GoodGeneration(g) && (s.ConfigStep? || s.StatusStep?) && Fits(s, us) && them.ca != []
    requires Cleared(g, l, us.units[s.me], them.trust)
    requires s.role.BrokerApp? && us.units[s.me].rotate && them.rotating ==> GateOpen(us.units[s.me], them)
    ensures Cleared(g, LocalAfter(s, l, us, them, now), BagAfter(s, l, us, them).units[s.me], them.trust)
  {
    hide PassLocal, PassBag, GoodGeneration, IsAfter, After, GateOpen, CleanupDue, Rebuild, PublishTrust;
    var b := us.units[s.me];
    if IsAfter(g, b.bundle) { GateOfAfter(g, b, them); }
    PassLocalShape(s.role, l, us, them, s.me, s.properties, now);
    PassBagShape(s.role, l, us, them, s.me);
    PassKeepsBundles(s.role, l, us, them, s.me);
    var told := PassBag(s.role, l, us, them, s.me);
    if CleanupDue(PassLocal(s.role, l, us, them, s.me, s.properties, now), told, them, s.me) {
      DueOpens(PassLocal(s.role, l, us, them, s.me, s.properties, now), told, them, s.me);
      SameGate(told.units[s.me], b, them);
    }
  }

  lemma DueOpens(l: Local, us: AppBag, them: AppBag, me: nat)
    requires me < |us.units| && CleanupDue(l, us, them, me)
    ensures GateOpen(us.units[me], them)
  {
  }

  lemma SameGate(b: UnitBag, c: UnitBag, them: AppBag)
    requires b.bundle == c.bundle
    ensures GateOpen(b, them) <==> GateOpen(c, them)
  {
  }

  lemma OwnCleared(g: Generation, s: Step, l: Local, us: AppBag, them: AppBag, now: nat)
    requires GoodGeneration(g) && Fits(s, us) && them.ca != [] && Cleared(g, l, us.units[s.me], them.trust)
    requires s.CertificateStep? || s.BrokenStep? ==> !l.pending
    requires s.CertificateStep? ==> s.bundle[0] != us.units[s.me].bundle[0]
    requires (s.ConfigStep? || s.StatusStep?) && s.role.BrokerApp? && us.units[s.me].rotate && them.rotating ==>
               GateOpen(us.units[s.me], them)
    ensures Cleared(g, LocalAfter(s, l, us, them, now), BagAfter(s, l, us, them).units[s.me], them.trust)
  {
    hide PassLocal, PassBag, StatusLocal, GoodGeneration, IsAfter, After, GateOpen, PublishTrust, CertificateDisk,
      BrokenDisk;
    if s.ConfigStep? || s.StatusStep? {
      PassCleared(g, s, l, us, them, now);
    } else if s.RestartStep? {
      PublishKeeps(l, us, s.me, true);
    }
  }

  lemma StepCleared(p: Plan, w: World, s: Step)
    requires GoodPlan(p) && WellFormedWorld(w) && Telling(p, w) && AllCleared(p, w)
    requires Enabled(w, s) && Allowed(p, w, s) && Gated(w, s)
    ensures AllCleared(p, Apply(w, s))
  {
    hide BagAfter, LocalAfter, Apply, Allowed, GoodPlan, Telling, IsAfter, After, GoodGeneration, Cleared, GateOpen,
      Apart, Ready, GoodBundle, Safe, AllCleared, WellFormedApp;
    var r := Apply(w, s);
    var app, them := w.Of(s.role), w.Of(s.role.Other()).bag;
    StepForms(w, s);
    StepHere(w, s);
    TellingAt(p, w, s.role);
    SafeReady(p, w, s);
    StepTelling(p, w, s);
    OfferThere(p, w, s.role.Other());
    StepElsewhere(w, s, s.role.Other(), 0);
    var g, other := p.Of(s.role), w.Of(s.role.Other());
    ClearedParts(p, w, s.role);
    ClearedParts(p, r, s.role);
    Formed(w, s.role.Other());
    Formed(w, s.role);
    OwnCleared(g, s, app.locals[s.me], app.bag, them, w.clock + 1);
    forall i: nat | i < |r.Of(s.role).locals|
      ensures Cleared(g, r.Of(s.role).locals[i], r.Of(s.role).bag.units[i], them.trust)
    {
      if i != s.me { assert Cleared(g, app.locals[i], app.bag.units[i], them.trust); }
    }
    forall i: nat | i < |other.locals|
      ensures Cleared(p.Of(s.role.Other()), other.locals[i], other.bag.units[i], r.Of(s.role).bag.trust)
    {
      ClearedMore(p.Of(s.role.Other()), other.locals[i], other.bag.units[i], app.bag.trust, r.Of(s.role).bag.trust);
    }
  }

  lemma ClearedMore(g: Generation, l: Local, b: UnitBag, trust: set<Certificate>, more: set<Certificate>)
    requires Cleared(g, l, b, trust) && (After(g) <= trust ==> After(g) <= more)
    ensures Cleared(g, l, b, more)
  {
    hide IsAfter, After;
  }

  lemma OfferThere(p: Plan, w: World, role: Role)
    requires WellFormedWorld(w) && Safe(p, w)
    ensures w.Of(role).bag.ca != []
  {
    hide Safe, WellFormedApp;
    OfferKnown(p, w, role);
  }

  lemma {:induction false} GatedAllowed(p: Plan, w: World, steps: seq<Step>)
    requires WellFormedWorld(w) && Runs(w, steps) && GatedRun(p, w, steps)
    ensures AllowedRun(p, w, steps)
    decreases |steps|
  {
    hide Allowed, Gated;
    if steps != [] { GatedAllowed(p, w, steps[..|steps| - 1]); }
  }

  lemma RestCleared(p: Plan, w: World)
    requires GoodPlan(p) && WellFormedWorld(w) && AtRest(p, w)
    ensures AllCleared(p, w)
  {
    hide GoodPlan, GoodGeneration, IsBefore, IsAfter, After, Install, WellFormedApp;
    ClearedParts(p, w, BrokerApp);
    forall role: Role, i: nat | i < |w.Of(role).locals|
      ensures i < |w.Of(role).bag.units|
      ensures Cleared(p.Of(role), w.Of(role).locals[i], w.Of(role).bag.units[i], w.Of(role.Other()).bag.trust)
    {
      Formed(w, role);
      PlanParts(p, role);
      assert RestUnit(p.Of(role), w.Of(role).locals[i], w.Of(role).bag.units[i], w.Of(role.Other()).bag, w.clock);
      GenerationsDiffer(p.Of(role), w.Of(role).bag.units[i].bundle);
    }
    assert AppCleared(p.Of(BrokerApp), w.Of(BrokerApp), w.Of(BrokerApp.Other()).bag.trust);
    assert AppCleared(p.Of(ControllerApp), w.Of(ControllerApp), w.Of(ControllerApp.Other()).bag.trust);
  }

  lemma {:induction false} RunCleared(p: Plan, w: World, steps: seq<Step>)
    requires GoodPlan(p) && WellFormedWorld(w) && AtRest(p, w) && Runs(w, steps) && GatedRun(p, w, steps)
    ensures AllCleared(p, Run(w, steps))
    decreases |steps|
  {
    hide GoodPlan, AtRest, Telling, Gated, Allowed, Apply, Enabled, AllCleared;
    if steps == [] {
      RestCleared(p, w);
    } else {
      var n := |steps| - 1;
      RunCleared(p, w, steps[..n]);
      GatedAllowed(p, w, steps[..n]);
      RestTelling(p, w);
      RunTelling(p, w, steps[..n]);
      StepCleared(p, Run(w, steps[..n]), steps[n]);
    }
  }

  /** Every restart of such a run is one that the gate has nothing against. */
  lemma RestartByGate(p: Plan, w: World, s: Step)
    requires GoodPlan(p) && WellFormedWorld(w) && Safe(p, w) && AllCleared(p, w) && Enabled(w, s) && s.RestartStep?
    ensures ByGate(p, w, s)
  {
    hide GoodPlan, GoodGeneration, IsBefore, IsAfter, After, GateOpen, Safe, WellFormedApp, UnitOk;
    var g, app := p.Of(s.role), w.Of(s.role);
    Formed(w, s.role);
    PlanParts(p, s.role);
    SafeAt(p, w, s.role);
    UnitGeneration(g, p.Of(s.role.Other()), app, w.Of(s.role.Other()).bag, s.me,
                   IsAfter(p.Of(s.role.Other()), w.Of(s.role.Other()).bag.ca), w.clock);
    ClearedParts(p, w, s.role);
    assert Cleared(g, app.locals[s.me], app.bag.units[s.me], w.Of(s.role.Other()).bag.trust);
    if IsAfter(g, app.bag.units[s.me].bundle) { GateOfAfter(g, app.bag.units[s.me], w.Of(s.role.Other()).bag); }
  }

  lemma UnitGeneration(g: Generation, r: Generation, app: App, them: AppBag, i: nat, ra: bool, clock: nat)
    requires WellFormedApp(app) && AppOk(g, r, app, them, ra, clock) && i < |app.locals|
    ensures IsBefore(g, app.bag.units[i].bundle) || IsAfter(g, app.bag.units[i].bundle)
  {
    hide IsBefore, IsAfter, BagOk, Coherent;
    assert UnitOk(g, r, app.locals[i], app.bag.units[i], ra, clock);
  }

  /** Step `k` restarts a unit whose store has met the other side's new offer, while some process of the
      other side presents the old CA and that CA is being retired. */
  ghost predicate Forgets(p: Plan, w: World, steps: seq<Step>, k: nat)
    requires WellFormedWorld(w)
  {
    && k < |steps| && Runs(w, steps[..k]) && steps[k].RestartStep?
    && SomeOld(p.Of(steps[k].role.Other()), Run(w, steps[..k]).Of(steps[k].role.Other()))
    && Retires(p.Of(steps[k].role.Other()))
    && MetNewOffer(p, w, steps[..k], steps[k].role, steps[k].me)
  }

  /** All processes trust each other after the first `k` steps. */
  ghost predicate TrustsAt(w: World, steps: seq<Step>, k: nat)
    requires WellFormedWorld(w)
  {
    k <= |steps| && Runs(w, steps[..k]) && AllTrust(Run(w, steps[..k]))
  }

  /** Over whole runs, with one application rotating or both, in which no restart goes past the gate: all
      processes trust each other at every moment if and only if no such restart happens. */
  lemma {:induction false} TrustHoldsExactly(p: Plan, w: World, steps: seq<Step>)
    requires GoodPlan(p) && WellFormedWorld(w) && AtRest(p, w) && Runs(w, steps) && GatedRun(p, w, steps)
    ensures (forall k: nat | k <= |steps| :: TrustsAt(w, steps, k)) <==> (forall k: nat :: !Forgets(p, w, steps, k))
    decreases |steps|
  {
    hide GoodPlan, AtRest, Gated, Allowed, Apply, Enabled, AllTrust, TrustsAt, Forgets, Run, Runs, GatedRun;
    if steps == [] {
      RestTrusts(p, w);
      NothingForgotten(p, w);
    } else {
      var n := |steps| - 1;
      GatedParts(p, w, steps);
      TrustHoldsExactly(p, w, steps[..n]);
      forall k: nat | k <= n ensures TrustsAt(w, steps, k) <==> TrustsAt(w, steps[..n], k) {
        TrustsPrefix(w, steps, n, k);
      }
      forall k: nat
        ensures Forgets(p, w, steps, k) <==> if k == n then Forgets(p, w, steps, n) else Forgets(p, w, steps[..n], k)
        ensures Forgets(p, w, steps[..n], k) ==> k < n
      {
        ForgetsPrefix(p, w, steps, n, k);
      }
      assert (forall k: nat | k <= n :: TrustsAt(w, steps, k)) <==> (forall k: nat :: !Forgets(p, w, steps[..n], k));
      assert (forall k: nat :: !Forgets(p, w, steps, k)) <==>
        (forall k: nat :: !Forgets(p, w, steps[..n], k)) && !Forgets(p, w, steps, n);
      assert (forall k: nat | k <= n + 1 :: TrustsAt(w, steps, k)) <==>
        (forall k: nat | k <= n :: TrustsAt(w, steps, k)) && TrustsAt(w, steps, n + 1);
      if TrustsAt(w, steps, n) { LastTrusts(p, w, steps); }
    }
  }

  lemma GatedParts(p: Plan, w: World, steps: seq<Step>)
    requires WellFormedWorld(w) && Runs(w, steps) && GatedRun(p, w, steps) && steps != []
    ensures var n := |steps| - 1;
            && Runs(w, steps[..n]) && GatedRun(p, w, steps[..n]) && Enabled(Run(w, steps[..n]), steps[n])
            && Allowed(p, Run(w, steps[..n]), steps[n]) && Run(w, steps) == Apply(Run(w, steps[..n]), steps[n])
  {
    hide Enabled, Allowed, Apply, Gated;
  }

  lemma TrustsPrefix(w: World, steps: seq<Step>, n: nat, k: nat)
    requires WellFormedWorld(w) && k <= n <= |steps|
    ensures TrustsAt(w, steps, k) <==> TrustsAt(w, steps[..n], k)
  {
    assert steps[..n][..k] == steps[..k];
  }

  lemma ForgetsPrefix(p: Plan, w: World, steps: seq<Step>, n: nat, k: nat)
    requires WellFormedWorld(w) && n == |steps| - 1
    ensures k != n ==> (Forgets(p, w, steps, k) <==> Forgets(p, w, steps[..n], k))
    ensures Forgets(p, w, steps[..n], k) ==> k < n
  {
    hide Run, Runs, SomeOld, Retires, MetNewOffer;
    if k < n { assert steps[..n][..k] == steps[..k]; }
  }

  /** One more step. */
  lemma LastTrusts(p: Plan, w: World, steps: seq<Step>)
    requires GoodPlan(p) && WellFormedWorld(w) && AtRest(p, w) && Runs(w, steps) && GatedRun(p, w, steps)
    requires steps != [] && TrustsAt(w, steps, |steps| - 1)
    ensures TrustsAt(w, steps, |steps|) <==> !Forgets(p, w, steps, |steps| - 1)
  {
    hide GoodPlan, AtRest, Gated, Allowed, Apply, Enabled, AllTrust, Run, Runs, GatedRun, AllowedRun, Telling, Safe,
      AllCleared, ByGate, SomeOld, Retires, MetNewOffer;
    var n := |steps| - 1;
    GatedParts(p, w, steps);
    GatedAllowed(p, w, steps[..n]);
    var before, s := Run(w, steps[..n]), steps[n];
    assert steps[..|steps|] == steps;
    if s.RestartStep? {
      RestTelling(p, w);
      RunTelling(p, w, steps[..n]);
      TellingAt(p, before, s.role);
      RunCleared(p, w, steps[..n]);
      RestartByGate(p, before, s);
      GateRestartBreaksExactly(p, w, steps[..n], s);
    } else {
      TrustBreaksExactly(p, w, steps[..n], s);
      NoHaste(p, before, s);
    }
  }

  lemma NoHaste(p: Plan, w: World, s: Step)
    requires WellFormedWorld(w) && !s.RestartStep?
    ensures !Hasty(p, w, s)
  {
  }

  lemma NothingForgotten(p: Plan, w: World)
    requires WellFormedWorld(w)
    ensures forall k: nat :: !Forgets(p, w, [], k)
  {
  }

  lemma RestTrusts(p: Plan, w: World)
    requires GoodPlan(p) && WellFormedWorld(w) && AtRest(p, w)
    ensures forall k: nat | k <= 0 :: TrustsAt(w, [], k)
  {
    hide GoodPlan, AtRest, Trusting, TrustEachOther;
    RestTrusting(p, BrokerApp, w);
    forall u: nat, v: nat | u < |w.broker.locals| && v < |w.controller.locals|
      ensures TrustEachOther(w.broker.locals[u], w.controller.locals[v])
    {
      assert w.Of(BrokerApp) == w.broker && w.Of(BrokerApp.Other()) == w.controller;
      TrustingMeans(p, BrokerApp, w, u, v);
    }
    var none: seq<Step> := [];
    assert none[..0] == none;
  }
}
