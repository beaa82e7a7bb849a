/** Exactly when the hooks of the two charms can finish the rotation.  A controller leader that rotates
    unannounced can wait for the brokers while they wait for it; and a unit whose new CA its leader does
    not offer waits for its leader, unless it is a broker and the controllers announce their rotation. */
module RotationDeadlock {
  import opened Truststore
  import opened Rotation
  import opened RotationSafety
  import opened RotationCleanup
  import opened RotationProgress
  import opened RotationFinish

  /** The CA certificates of the bundle that the leader offers, or is about to. */
  function LeadSet(us: AppBag): set<Certificate>
    requires WellFormed(us)
  {
    Authorities(us.units[us.leader].bundle)
  }

  /** The unit presents under the same CA certificates as its leader. */
  predicate Alike(us: AppBag, i: nat)
    requires WellFormed(us)
  {
    i < |us.units| && Authorities(us.units[i].bundle) == LeadSet(us)
  }

  /** The unit could not publish the certificate, unless the other side offers it. */
  predicate Ignorant(remote: App, t: nat, c: Certificate) {
    && t < |remote.locals| && t < |remote.bag.units|
    && c !in remote.bag.units[t].published && c !in remote.bag.units[t].bundle
    && c !in remote.locals[t].disk.trust.Values
  }

  /** The certificate is neither offered nor trusted, and there is a remote unit that does not know it. */
  ghost predicate Unseen(c: Certificate, us: AppBag, remote: App)
    requires WellFormed(us)
  {
    && c !in us.ca && c !in us.units[us.leader].bundle && c !in remote.bag.trust
    && exists t: nat :: Ignorant(remote, t, c)
  }

  /** A rotating unit with a CA certificate that the other side cannot come to trust. */
  ghost predicate Strange(us: AppBag, i: nat, remote: App)
    requires WellFormed(us)
  {
    i < |us.units| && us.units[i].rotate && exists c :: c in Authorities(us.units[i].bundle) && Unseen(c, us, remote)
  }

  ghost predicate SomeStrange(us: AppBag, remote: App)
    requires WellFormed(us)
  {
    exists i: nat :: Strange(us, i, remote)
  }

  // ---- What is unseen stays unseen ----

  /** The certificates of a store after a hook come from the store, the remote offer and the own bundle. */
  lemma StoreSources(s: Step, l: Local, us: AppBag, them: AppBag, now: nat)
    requires Fits(s, us) && s.Internal() && FilesHold(l.disk.files, us.units[s.me].bundle)
    ensures LocalAfter(s, l, us, them, now).disk.trust.Values
            <= l.disk.trust.Values + Members(them.ca) + Members(us.units[s.me].bundle)
  {
    hide PeerPass, Rebuild, HeldBack, PublishTrust, PassBag, CleanupDue, FilesHold, OwnFiled, PeersFiled, HasTemporary;
    PassAdds(l.disk, them.ca, now);
    PassFiles(l.disk, them.ca, us.units[s.me].bundle, now);
    RebuildExact(PeerPass(l.disk, them.ca, now), us.units[s.me].bundle, them.ca, now);
    RebuildExact(l.disk, us.units[s.me].bundle, them.ca, now);
  }

  lemma UnseenRemote(c: Certificate, us: AppBag, remote: App, after: App, s: Step, clock: nat)
    requires WellFormed(us) && Unseen(c, us, remote) && s.Internal() && Fits(s, remote.bag)
    requires |remote.locals| == |remote.bag.units| == |after.locals| == |after.bag.units|
    requires after.bag == BagAfter(s, remote.locals[s.me], remote.bag, us)
    requires after.locals[s.me] == LocalAfter(s, remote.locals[s.me], remote.bag, us, clock + 1)
    requires forall i: nat | i < |remote.locals| && i != s.me ::
               after.locals[i] == remote.locals[i] && after.bag.units[i] == remote.bag.units[i]
    requires Timed(remote.locals[s.me], clock)
    requires FilesHold(remote.locals[s.me].disk.files, remote.bag.units[s.me].bundle)
    ensures Unseen(c, us, after)
  {
    hide BagAfter, LocalAfter, TrustedByAll, Timed, FilesHold;
    var l := remote.locals[s.me];
    StoreSources(s, l, remote.bag, us, clock + 1);
    StepBundles(s, l, remote.bag, us);
    PublishesStore(s, l, remote.bag, us, clock);
    StepPublishes(s, l, remote.bag, us, clock);
    var t: nat :| Ignorant(remote, t, c);
    assert Ignorant(after, t, c);
    TrustedByAllMeans(after.bag.units, c);
  }

  lemma UnseenOwn(c: Certificate, us: AppBag, told: AppBag, remote: App, s: Step, l: Local)
    requires Fits(s, us) && s.Internal() && Unseen(c, us, remote) && told == BagAfter(s, l, us, remote.bag)
    requires s.OfferStep? ==> s.me == us.leader
    ensures WellFormed(told) && Unseen(c, told, remote)
  {
    hide BagAfter;
    StepBundles(s, l, us, remote.bag);
    OfferSource(s, l, us, remote.bag);
  }

  lemma UnitFacts(w: World, role: Role, i: nat)
    requires WellFormedWorld(w) && CoherentWorld(w) && i < |w.Of(role).locals|
    ensures i < |w.Of(role).bag.units| && Timed(w.Of(role).locals[i], w.clock)
    ensures FilesHold(w.Of(role).locals[i].disk.files, w.Of(role).bag.units[i].bundle)
  {
    hide Timed, FilesHold;
    assert CoherentApp(w.Of(role), w.clock);
    assert Coherent(w.Of(role).locals[i], w.Of(role).bag.units[i], w.clock);
  }

  lemma UnseenStays(w: World, s: Step, role: Role, c: Certificate)
    requires WellFormedWorld(w) && CoherentWorld(w) && Enabled(w, s) && s.Internal()
    requires WellFormed(w.Of(role).bag) && Unseen(c, w.Of(role).bag, w.Of(role.Other()))
    ensures WellFormed(Apply(w, s).Of(role).bag) && Unseen(c, Apply(w, s).Of(role).bag, Apply(w, s).Of(role.Other()))
  {
    hide BagAfter, LocalAfter, Apply, Unseen, CoherentWorld, Timed, FilesHold;
    StepHere(w, s);
    StepElsewhere(w, s, s.role.Other(), 0);
    UnitFacts(w, s.role, s.me);
    if s.role == role {
      UnseenOwn(c, w.Of(role).bag, Apply(w, s).Of(role).bag, w.Of(role.Other()), s, w.Of(role).locals[s.me]);
    } else {
      assert role == s.role.Other() && s.role == role.Other();
      UnseenRemote(c, w.Of(role).bag, w.Of(s.role), Apply(w, s).Of(s.role), s, w.clock);
    }
  }

  /** The bundles, and who leads, stay as they are. */
  lemma LeadStays(w: World, s: Step, role: Role)
    requires WellFormedWorld(w) && Enabled(w, s) && s.Internal()
    ensures var us, told := w.Of(role).bag, Apply(w, s).Of(role).bag;
            && WellFormed(us) && WellFormed(told) && told.leader == us.leader && |told.units| == |us.units|
            && (forall i: nat | i < |us.units| :: told.units[i].bundle == us.units[i].bundle)
            && (forall i: nat | i < |us.units| && told.units[i].rotate :: us.units[i].rotate)
            && LeadSet(told) == LeadSet(us) && (forall i: nat :: Alike(told, i) <==> Alike(us, i))
  {
    hide BagAfter, LocalAfter, Apply, Authorities;
    Sized(w, role);
    StepHere(w, s);
    StepElsewhere(w, s, s.role.Other(), 0);
    if s.role == role {
      StepBundles(s, w.Of(role).locals[s.me], w.Of(role).bag, w.Of(role.Other()).bag);
    } else {
      assert role == s.role.Other();
    }
  }

  // ---- A hook of a unit that is held back ----

  /** It leaves the flags as they are; it restarts nothing, and publishes only what is already loaded. */
  lemma HeldStep(s: Step, l: Local, us: AppBag, them: AppBag, clock: nat, cs: set<Certificate>)
    requires Fits(s, us) && s.Internal() && Timed(l, clock) && (s.RestartStep? ==> l.pending)
    requires !Free(s.role, us.units[s.me], them)
    ensures var r, l2 := BagAfter(s, l, us, them), LocalAfter(s, l, us, them, clock + 1);
            && r.units[s.me].rotate && r.rotating == us.rotating
            && (!CanTell(l, us.units[s.me], cs) ==> !CanTell(l2, r.units[s.me], cs))
            && (!CanRefresh(l, us.units[s.me], cs) ==> !CanRefresh(l2, r.units[s.me], cs))
            && (!CanRefresh(l, us.units[s.me], cs) && !(cs <= us.trust) ==> !(cs <= r.trust))
  {
    hide PeerPass, PublishTrust, Rebuild, TrustedByAll, AnyRotating, GateOpen, Exempt, CleanupDue;
    PublishKeeps(l, us, s.me, false);
    PublishKeeps(l, us, s.me, true);
    PassTime(l.disk, them.ca, clock + 1);
    HeldPublish(l, us, s.me, cs);
    if s.ConfigStep? || s.StatusStep? {
      FreeNotHeld(s.role, l, us, them, s.me);
      if them.ca == [] { NoCleanup(l, us, them, s.me); } else { HeldNoCleanup(s, l, us, them, clock + 1); }
    }
  }

  /** A publication guarded by the times, at a unit that is not to publish all of `cs`. */
  lemma HeldPublish(l: Local, us: AppBag, me: nat, cs: set<Certificate>)
    requires WellFormed(us) && me < |us.units|
    ensures var r := PublishTrust(l, us, me, false);
            && (r.units[me].published == us.units[me].published
                || (l.lastRestart > l.disk.modified && r.units[me].published == l.disk.trust.Values))
            && (!(l.lastRestart > l.disk.modified && cs <= l.disk.trust.Values) && !(cs <= us.trust) ==>
               !(cs <= r.trust))
  {
    var r := PublishTrust(l, us, me, false);
    if r.trust != us.trust && !(cs <= l.disk.trust.Values) {
      var c :| c in cs && c !in l.disk.trust.Values;
      TrustedByAllMeans(r.units, c);
      assert c !in r.units[me].published;
    }
  }

  lemma HeldNoCleanup(s: Step, l: Local, us: AppBag, them: AppBag, now: nat)
    requires Fits(s, us) && (s.ConfigStep? || s.StatusStep?) && them.ca != []
    requires HeldBack(s.role, PublishTrust(l, us, s.me, false), them, s.me)
    ensures var r, l2 := BagAfter(s, l, us, them), LocalAfter(s, l, us, them, now);
            r == PublishTrust(l, us, s.me, false) && l2 == l.(disk := PeerPass(l.disk, them.ca, now))
  {
    hide PeerPass, PublishTrust, Rebuild, TrustedByAll, AnyRotating;
    PublishKeeps(l, us, s.me, false);
  }

  /** A hook of another unit leaves the application's summary to its leader. */
  lemma FollowerStep(s: Step, l: Local, us: AppBag, them: AppBag)
    requires Fits(s, us) && s.Internal() && s.me != us.leader
    ensures BagAfter(s, l, us, them).trust == us.trust && BagAfter(s, l, us, them).rotating == us.rotating
  {
    hide TrustedByAll, AnyRotating, HeldBack;
  }

  /** The unit keeps `cs` out of its application's trust while it is held back. */
  predicate Blocks(app: App, i: nat, cs: set<Certificate>) {
    && i < |app.locals| && i < |app.bag.units|
    && (|| !CanTell(app.locals[i], app.bag.units[i], cs)
        || (i == app.bag.leader && !CanRefresh(app.locals[i], app.bag.units[i], cs)))
  }

  /** A hook anywhere in the application leaves it so. */
  lemma BlockStep(w: World, s: Step, i: nat, cs: set<Certificate>)
    requires WellFormedWorld(w) && CoherentWorld(w) && Enabled(w, s) && s.Internal()
    requires Blocks(w.Of(s.role), i, cs) && !(cs <= w.Of(s.role).bag.trust)
    requires !Free(s.role, w.Of(s.role).bag.units[i], w.Of(s.role.Other()).bag)
    ensures Blocks(Apply(w, s).Of(s.role), i, cs) && !(cs <= Apply(w, s).Of(s.role).bag.trust)
  {
    hide BagAfter, LocalAfter, Apply, CoherentWorld, TrustedByAll, FilesHold, Timed, Free, CanTell, CanRefresh;
    var app, r, them := w.Of(s.role), Apply(w, s).Of(s.role), w.Of(s.role.Other()).bag;
    StepHere(w, s);
    UnitFacts(w, s.role, s.me);
    LeadStays(w, s, s.role);
    StepPublishes(s, app.locals[s.me], app.bag, them, w.clock);
    if s.me == i {
      HeldStep(s, app.locals[i], app.bag, them, w.clock, cs);
    } else if !CanTell(app.locals[i], app.bag.units[i], cs) {
      Untold(app.locals[i], app.bag.units[i], cs);
    } else {
      FollowerStep(s, app.locals[s.me], app.bag, them);
    }
    if !CanTell(r.locals[i], r.bag.units[i], cs) {
      Untold(r.locals[i], r.bag.units[i], cs);
      var c :| c in cs && c !in r.bag.units[i].published;
      TrustedByAllMeans(r.bag.units, c);
    }
  }

  lemma Untold(l: Local, b: UnitBag, cs: set<Certificate>)
    requires !CanTell(l, b, cs)
    ensures !(cs <= b.published) && b.rotate
  {
  }

  // ---- States without a way out ----

  lemma StrangeBundle(w: World, s: Step, role: Role, i: nat)
    requires WellFormedWorld(w) && CoherentWorld(w) && Enabled(w, s) && s.Internal()
    requires WellFormed(w.Of(role).bag) && Strange(w.Of(role).bag, i, w.Of(role.Other()))
    ensures WellFormed(Apply(w, s).Of(role).bag) && i < |Apply(w, s).Of(role).bag.units|
    ensures Apply(w, s).Of(role).bag.units[i].rotate ==>
              Strange(Apply(w, s).Of(role).bag, i, Apply(w, s).Of(role.Other()))
  {
    hide Apply, CoherentWorld, Unseen, Authorities;
    LeadStays(w, s, role);
    var c :| c in Authorities(w.Of(role).bag.units[i].bundle) && Unseen(c, w.Of(role).bag, w.Of(role.Other()));
    UnseenStays(w, s, role, c);
    assert c in Authorities(Apply(w, s).Of(role).bag.units[i].bundle);
  }

  lemma StrangeRotates(us: AppBag, i: nat, remote: App)
    requires WellFormed(us) && Strange(us, i, remote)
    ensures i < |us.units| && us.units[i].rotate && !GateOpen(us.units[i], remote.bag)
  {
  }

  /** What the controller leader announces: its flag as it was, or whether the others rotate. */
  lemma FlagStep(s: Step, l: Local, us: AppBag, them: AppBag)
    requires Fits(s, us) && s.Internal() && s.role.ControllerApp? && !us.rotating && !OthersRotate(us)
    ensures !BagAfter(s, l, us, them).rotating
  {
    hide TrustedByAll, PublishTrust, GateOpen, AnyRotating, OthersRotate;
    PublishKeeps(l, us, s.me, false);
    PublishKeeps(l, us, s.me, true);
    if (s.ConfigStep? || s.StatusStep?) && s.me == us.leader && BagAfter(s, l, us, them).rotating != us.rotating {
      DoneFlag(s.role, PublishTrust(l, us, s.me, false), s.me);
      FlagIs(us, PassDone(s.role, PublishTrust(l, us, s.me, false), s.me), s.me);
    }
  }

  /** Unit `i` is held at the gate: it is strange, or its CA is kept out of the other side's trust by one of
      these remote units. */
  ghost predicate Waiting(us: AppBag, i: nat, remote: App, theirs: set<nat>)
    requires WellFormed(us)
  {
    && i < |us.units| && us.units[i].rotate && !GateOpen(us.units[i], remote.bag)
    && (Strange(us, i, remote) || exists t: nat :: t in theirs && Blocks(remote, t, Authorities(us.units[i].bundle)))
  }

  /** These brokers and these controllers wait for each other, or for their leaders; and if there are brokers
      among them, nothing is announced, nor will be: the controller leader waits too, or is the last one. */
  ghost predicate Jam(w: World, brokers: set<nat>, controllers: set<nat>)
    requires WellFormedWorld(w)
  {
    var b, c := w.broker, w.controller;
    && WellFormed(b.bag) && WellFormed(c.bag) && brokers + controllers != {}
    && (forall i: nat | i in brokers :: Waiting(b.bag, i, c, controllers))
    && (forall j: nat | j in controllers :: Waiting(c.bag, j, b, brokers))
    && (brokers != {} ==> !c.bag.rotating && (c.bag.leader in controllers || !OthersRotate(c.bag)))
  }

  /** A unit whose own application takes a step goes on waiting. */
  lemma OwnWaits(w: World, s: Step, i: nat, theirs: set<nat>)
    requires WellFormedWorld(w) && CoherentWorld(w) && Enabled(w, s) && s.Internal()
    requires WellFormed(w.Of(s.role).bag) && Waiting(w.Of(s.role).bag, i, w.Of(s.role.Other()), theirs)
    requires s.role.BrokerApp? ==> !w.Of(s.role.Other()).bag.rotating
    ensures WellFormed(Apply(w, s).Of(s.role).bag)
    ensures Waiting(Apply(w, s).Of(s.role).bag, i, Apply(w, s).Of(s.role.Other()), theirs)
  {
    hide Apply, BagAfter, LocalAfter, CoherentWorld, Strange, Authorities, Timed, FilesHold, Blocks;
    var us, remote, r := w.Of(s.role).bag, w.Of(s.role.Other()), Apply(w, s);
    StepHere(w, s);
    StepElsewhere(w, s, s.role, i);
    StepElsewhere(w, s, s.role.Other(), 0);
    LeadStays(w, s, s.role);
    if s.me == i {
      UnitFacts(w, s.role, i);
      HeldStep(s, w.Of(s.role).locals[i], us, remote.bag, w.clock, {});
    }
    if Strange(us, i, remote) { StrangeBundle(w, s, s.role, i); }
  }

  /** And so does one whose blockers wait. */
  lemma OtherWaits(w: World, s: Step, j: nat, mine: set<nat>, theirs: set<nat>)
    requires WellFormedWorld(w) && CoherentWorld(w) && Enabled(w, s) && s.Internal()
    requires WellFormed(w.Of(s.role).bag) && WellFormed(w.Of(s.role.Other()).bag)
    requires Waiting(w.Of(s.role.Other()).bag, j, w.Of(s.role), mine)
    requires forall i: nat | i in mine :: Waiting(w.Of(s.role).bag, i, w.Of(s.role.Other()), theirs)
    requires s.role.BrokerApp? && mine != {} ==> !w.Of(s.role.Other()).bag.rotating
    ensures WellFormed(Apply(w, s).Of(s.role.Other()).bag)
    ensures Waiting(Apply(w, s).Of(s.role.Other()).bag, j, Apply(w, s).Of(s.role), mine)
  {
    hide Apply, BagAfter, LocalAfter, CoherentWorld, Strange, Authorities, Blocks;
    var us, them, r := w.Of(s.role), w.Of(s.role.Other()).bag, Apply(w, s);
    assert s.role.Other().Other() == s.role;
    StepElsewhere(w, s, s.role.Other(), j);
    if Strange(them, j, us) {
      StrangeBundle(w, s, s.role.Other(), j);
      StrangeRotates(r.Of(s.role.Other()).bag, j, r.Of(s.role));
    } else {
      var i: nat :| i in mine && Blocks(us, i, Authorities(them.units[j].bundle));
      assert Waiting(us.bag, i, w.Of(s.role.Other()), theirs);
      BlockStep(w, s, i, Authorities(them.units[j].bundle));
    }
  }

  /** Nothing is announced. */
  lemma FlagStays(w: World, s: Step, brokers: set<nat>, controllers: set<nat>)
    requires WellFormedWorld(w) && CoherentWorld(w) && Jam(w, brokers, controllers) && brokers != {}
    requires Enabled(w, s) && s.Internal()
    ensures var us := Apply(w, s).controller.bag;
            && WellFormed(us) && !us.rotating && us.leader == w.controller.bag.leader
            && (OthersRotate(us) ==> OthersRotate(w.controller.bag))
  {
    hide Apply, BagAfter, LocalAfter, CoherentWorld, Strange, Authorities, Blocks, Timed, FilesHold;
    var c, r := w.controller, Apply(w, s);
    assert w.Of(BrokerApp) == w.broker && w.Of(ControllerApp) == c && r.Of(ControllerApp) == r.controller;
    StepHere(w, s);
    StepElsewhere(w, s, s.role.Other(), 0);
    LeadStays(w, s, ControllerApp);
    if s.role.ControllerApp? {
      if c.bag.leader !in controllers {
        FlagStep(s, c.locals[s.me], c.bag, w.broker.bag);
      } else if s.me == c.bag.leader {
        UnitFacts(w, ControllerApp, s.me);
        HeldStep(s, c.locals[s.me], c.bag, w.broker.bag, w.clock, {});
      } else {
        FollowerStep(s, c.locals[s.me], c.bag, w.broker.bag);
      }
    }
  }

  lemma JamStep(w: World, s: Step, brokers: set<nat>, controllers: set<nat>)
    requires WellFormedWorld(w) && CoherentWorld(w) && Jam(w, brokers, controllers) && Enabled(w, s) && s.Internal()
    ensures Jam(Apply(w, s), brokers, controllers)
  {
    hide Apply, CoherentWorld, Waiting, OthersRotate;
    var r := Apply(w, s);
    assert w.Of(BrokerApp) == w.broker && w.Of(ControllerApp) == w.controller;
    assert r.Of(BrokerApp) == r.broker && r.Of(ControllerApp) == r.controller;
    LeadStays(w, s, BrokerApp);
    LeadStays(w, s, ControllerApp);
    if brokers != {} { FlagStays(w, s, brokers, controllers); }
    forall i: nat | i in brokers ensures Waiting(r.broker.bag, i, r.controller, controllers) {
      if s.role.BrokerApp? { OwnWaits(w, s, i, controllers); } else { OtherWaits(w, s, i, controllers, brokers); }
    }
    forall j: nat | j in controllers ensures Waiting(r.controller.bag, j, r.broker, brokers) {
      if s.role.ControllerApp? { OwnWaits(w, s, j, brokers); } else { OtherWaits(w, s, j, brokers, controllers); }
    }
  }

  lemma {:induction false} JamStays(w: World, steps: seq<Step>, brokers: set<nat>, controllers: set<nat>)
    requires WellFormedWorld(w) && CoherentWorld(w) && Jam(w, brokers, controllers) && Hooks(w, steps)
    ensures Runs(w, steps) && Jam(Run(w, steps), brokers, controllers)
    decreases |steps|
  {
    hide Apply, Enabled, WellFormedApp, CoherentWorld, Jam;
    if steps != [] {
      var n := |steps| - 1;
      JamStays(w, steps[..n], brokers, controllers);
      RunCoherent(w, steps[..n]);
      JamStep(Run(w, steps[..n]), steps[n], brokers, controllers);
    }
  }

  lemma JamRotates(w: World, brokers: set<nat>, controllers: set<nat>)
    requires WellFormedWorld(w) && Jam(w, brokers, controllers)
    ensures !Clear(w)
  {
    hide Strange, Blocks, OthersRotate, GateOpen;
    if i: nat :| i in brokers {
      assert w.broker.bag.units[i] in w.broker.bag.units;
    } else {
      assert brokers == {} && controllers != {};
      var j: nat :| j in controllers;
      assert w.controller.bag.units[j] in w.controller.bag.units;
    }
  }

  /** Whatever the state: no sequence of hooks clears the flags of units that wait for each other. */
  lemma JamWaits(w: World, brokers: set<nat>, controllers: set<nat>)
    requires WellFormedWorld(w) && CoherentWorld(w) && Jam(w, brokers, controllers)
    ensures !Clearable(w)
  {
    hide CoherentWorld, Hooks, Run, Runs, Clear, Jam;
    forall steps | Hooks(w, steps) ensures Runs(w, steps) && !Clear(Run(w, steps)) {
      JamStays(w, steps, brokers, controllers);
      JamRotates(Run(w, steps), brokers, controllers);
    }
  }

  /** A strange controller is not cleared by any sequence of hooks. */
  lemma StrangeControllerWaits(w: World)
    requires WellFormedWorld(w) && CoherentWorld(w) && WellFormed(w.broker.bag)
    requires WellFormed(w.controller.bag) && SomeStrange(w.controller.bag, w.broker)
    ensures !Clearable(w)
  {
    hide CoherentWorld, Strange, Clearable, GateOpen, OthersRotate;
    var j: nat :| Strange(w.controller.bag, j, w.broker);
    StrangeRotates(w.controller.bag, j, w.broker);
    assert j in {j};
    JamWaits(w, {}, {j});
  }

  /** Nor is a strange broker when the controllers have no rotation to announce. */
  lemma StrangeBrokerWaits(w: World)
    requires WellFormedWorld(w) && CoherentWorld(w)
    requires WellFormed(w.controller.bag) && WellFormed(w.broker.bag) && SomeStrange(w.broker.bag, w.controller)
    requires !w.controller.bag.rotating && !OthersRotate(w.controller.bag)
    ensures !Clearable(w)
  {
    hide CoherentWorld, Strange, Clearable, GateOpen, OthersRotate;
    var i: nat :| Strange(w.broker.bag, i, w.controller);
    StrangeRotates(w.broker.bag, i, w.controller);
    assert i in {i};
    JamWaits(w, {i}, {});
  }

  lemma BlockerRotates(app: App, i: nat, cs: set<Certificate>)
    requires Blocks(app, i, cs)
    ensures i < |app.bag.units| && i < |app.locals| && app.bag.units[i].rotate
  {
  }
}
