/** What single hooks do, in terms of databags, aliases and certificates: the clean-up, the offers, and the
    passes. */
module RotationHooks {
  import opened Truststore
  import opened Rotation
  import opened RotationSafety
  import opened RotationCleanup
  import opened RotationGate
  import opened RotationProgress
  import opened RotationFinish
  import opened RotationDeadlock

  // ---- The clean-up ----

  /** Every CA certificate of the bundle is in the application's trust. */
  ghost predicate TrustedBy(bundle: seq<Certificate>, us: AppBag) {
    forall c | c in bundle && c.Authority? :: c in us.trust
  }

  /** Every CA certificate of the bundle is published by each unit. */
  ghost predicate PublishedByAll(bundle: seq<Certificate>, us: AppBag) {
    forall c, i: nat | c in bundle && c.Authority? && i < |us.units| :: c in us.units[i].published
  }

  /** Both applications trust both bundles: the unit's own, and the other side's offer. */
  ghost predicate BothSidesTrust(us: AppBag, me: nat, them: AppBag)
    requires me < |us.units|
  {
    && TrustedBy(us.units[me].bundle, them) && PublishedByAll(us.units[me].bundle, us)
    && TrustedBy(them.ca, them) && PublishedByAll(them.ca, us)
  }

  lemma BothTrustMeans(us: AppBag, me: nat, them: AppBag)
    requires me < |us.units|
    ensures BothTrust(us, them, me) <==> BothSidesTrust(us, me, them)
  {
    forall c ensures c in TrustedByAll(us.units) <==> forall i: nat | i < |us.units| :: c in us.units[i].published {
      TrustedByAllMeans(us.units, c);
    }
    hide TrustedByAll;
    var own, offer := Authorities(us.units[me].bundle), Authorities(them.ca);
    forall c ensures c in own <==> c in us.units[me].bundle && c.Authority? { }
    forall c ensures c in offer <==> c in them.ca && c.Authority? { }
    hide Authorities;
    if BothSidesTrust(us, me, them) {
      forall c | c in own + offer ensures c in TrustedByAll(us.units) * them.trust { }
    }
  }

  /** The store has an entry that is to go: one of the bundle from before, or a second one of the other side's. */
  lemma TemporaryMeans(t: Trust)
    ensures HasTemporary(t) <==> exists i: nat :: OldBundle(i) in t || NewClusterTls(i) in t
  {
    if HasTemporary(t) {
      var a :| a in t && a.Temporary();
      assert a == OldBundle(a.i) || a == NewClusterTls(a.i);
    }
    if i: nat :| OldBundle(i) in t || NewClusterTls(i) in t {
      assert OldBundle(i).Temporary() && NewClusterTls(i).Temporary();
    }
  }

  /** What an `update_status` hook does to its unit's store, once its pass is done. */
  lemma StatusStore(s: Step, l: Local, us: AppBag, them: AppBag, now: nat)
    requires s.StatusStep? && Fits(s, us) && them.ca != [] && FilesHold(l.disk.files, us.units[s.me].bundle)
    ensures var r, told := LocalAfter(s, l, us, them, now), BagAfter(s, l, us, them);
            var passed := PeerPass(l.disk, them.ca, now);
            && told.units[s.me].bundle == us.units[s.me].bundle
            && (if BothSidesTrust(told, s.me, them) && exists i: nat ::
                 OldBundle(i) in passed.trust || NewClusterTls(i) in passed.trust
                then && (forall i: nat :: OldBundle(i) !in r.disk.trust && NewClusterTls(i) !in r.disk.trust)
                     && r.disk.trust.Values == Members(us.units[s.me].bundle) + Members(them.ca) && r.pending
                else r.disk == passed)
  {
    hide PassBag, PeerPass, PassLocal, BothSidesTrust, BothTrust, FilesHold, Members, OwnFiled, PeersFiled,
      HasTemporary, Rebuild;
    var passed, told := PeerPass(l.disk, them.ca, now), BagAfter(s, l, us, them);
    PassKeepsBundles(s.role, l, us, them, s.me);
    PassLocalShape(s.role, l, us, them, s.me, s.properties, now);
    BothTrustMeans(told, s.me, them);
    TemporaryMeans(passed.trust);
    PassFiles(l.disk, them.ca, us.units[s.me].bundle, now);
    RebuildExact(passed, us.units[s.me].bundle, them.ca, now);
    TemporaryMeans(Rebuild(passed, us.units[s.me].bundle, them.ca, now).trust);
  }

  /** After every `update_status` hook with a remote offer: when its pass leaves both bundles within the trust of
      both applications, the store holds no entry of an earlier bundle and no second entry of the other side's,
      and a retired CA certificate that stood under an `old-` alias is gone; otherwise every entry that is not
      such a second one is still there. */
  lemma StatusCleans(w: World, s: Step)
    requires WellFormedWorld(w) && CoherentWorld(w) && Enabled(w, s) && s.StatusStep?
    requires w.Of(s.role.Other()).bag.ca != []
    ensures var app, after, them := w.Of(s.role), Apply(w, s).Of(s.role), w.Of(s.role.Other()).bag;
            && s.me < |app.locals| && s.me < |after.locals| && s.me < |after.bag.units|
            && var t, r, bundle := app.locals[s.me].disk.trust, after.locals[s.me].disk.trust,
               after.bag.units[s.me].bundle;
               && bundle == app.bag.units[s.me].bundle
               && if BothSidesTrust(after.bag, s.me, them)
                  then && (forall i: nat :: OldBundle(i) !in r && NewClusterTls(i) !in r)
                       && (forall i: nat
                             | OldBundle(i) in t && t[OldBundle(i)] !in bundle && t[OldBundle(i)] !in them.ca ::
                             t[OldBundle(i)] !in r.Values)
                       && ((exists i: nat :: OldBundle(i) in t || NewClusterTls(i) in t) ==>
                             r.Values == Members(bundle) + Members(them.ca) && after.locals[s.me].pending)
                  else forall a: Alias | a in t && !a.NewClusterTls? :: a in r && r[a] == t[a]
  {
    hide Apply, BagAfter, LocalAfter, CoherentWorld, BothSidesTrust, PeerPass, Timed, FilesHold, WellFormedApp, Members;
    var app, them := w.Of(s.role), w.Of(s.role.Other()).bag;
    StepHere(w, s);
    UnitFacts(w, s.role, s.me);
    var l := app.locals[s.me];
    StatusStore(s, l, app.bag, them, w.clock + 1);
    var passed := PeerPass(l.disk, them.ca, w.clock + 1);
    forall a: Alias | a in l.disk.trust && !a.NewClusterTls?
      ensures a in passed.trust && passed.trust[a] == l.disk.trust[a] {
      PassKeeps(l.disk, them.ca, w.clock + 1, a);
    }
    forall a: Alias | a in l.disk.trust ensures a in passed.trust { PassEntry(l.disk, them.ca, w.clock + 1, a); }
    InMembers(app.bag.units[s.me].bundle);
    InMembers(them.ca);
  }

  lemma InMembers(bundle: seq<Certificate>)
    ensures forall c :: c in Members(bundle) <==> c in bundle
  {
  }

  // ---- The offers ----

  /** Whatever happens but an election, an application that offers its leader's bundle goes on doing so. */
  lemma StepOffers(w: World, s: Step, role: Role)
    requires WellFormedWorld(w) && Enabled(w, s) && !s.ElectStep?
    requires WellFormed(w.Of(role).bag) && Offered(w.Of(role).bag)
    ensures WellFormed(Apply(w, s).Of(role).bag) && Offered(Apply(w, s).Of(role).bag)
  {
    hide Apply, BagAfter, LocalAfter;
    StepHere(w, s);
    StepElsewhere(w, s, s.role.Other(), 0);
    if s.role == role {
      OfferFollows(s, w.Of(role).locals[s.me], w.Of(role).bag, w.Of(role.Other()).bag);
      LeaderOnly(w, s);
    } else {
      assert role == s.role.Other();
    }
  }

  lemma LeaderOnly(w: World, s: Step)
    requires WellFormedWorld(w) && Enabled(w, s)
    ensures s.OfferStep? ==> s.me == w.Of(s.role).bag.leader
  {
  }

  lemma OfferFollows(s: Step, l: Local, us: AppBag, them: AppBag)
    requires Fits(s, us) && !s.ElectStep? && Offered(us) && (s.OfferStep? ==> s.me == us.leader)
    ensures WellFormed(BagAfter(s, l, us, them)) && Offered(BagAfter(s, l, us, them))
  {
    hide PublishTrust, HeldBack, AnyRotating;
    PublishKeeps(l, us, s.me, false);
    PublishKeeps(l, us, s.me, true);
  }

  /** So in every run without elections, the offer is the leader's own bundle. */
  lemma {:induction false} RunOffers(p: Plan, w: World, steps: seq<Step>, role: Role)
    requires WellFormedWorld(w) && AtRest(p, w) && Runs(w, steps) && forall s | s in steps :: !s.ElectStep?
    ensures WellFormed(Run(w, steps).Of(role).bag) && Offered(Run(w, steps).Of(role).bag)
    decreases |steps|
  {
    hide Apply, Enabled, WellFormedApp, RestUnit, IsBefore, TrustedByAll;
    if steps == [] {
      assert RestBag(p.Of(role), w.Of(role).bag);
    } else {
      var n := |steps| - 1;
      assert steps[n] in steps;
      RunOffers(p, w, steps[..n], role);
      StepOffers(Run(w, steps[..n]), steps[n], role);
    }
  }

  // ---- The passes ----

  /** The unit may pass: it is not rotating, the other side trusts its bundle, or it may go first. */
  ghost predicate MayPass(role: Role, b: UnitBag, them: AppBag) {
    !b.rotate || TrustedBy(b.bundle, them) || (role == BrokerApp && them.rotating)
  }

  lemma MayPassMeans(role: Role, b: UnitBag, them: AppBag)
    ensures MayPass(role, b, them) <==> Free(role, b, them)
  {
    forall c ensures c in Authorities(b.bundle) <==> c in b.bundle && c.Authority? { }
    hide Authorities;
    if TrustedBy(b.bundle, them) { assert GateOpen(b, them); }
  }

  /** What a pass writes into the databags, and whether it asks for a restart. */
  lemma PassWrites(w: World, s: Step)
    requires WellFormedWorld(w) && Enabled(w, s) && (s.ConfigStep? || s.StatusStep?)
    requires w.Of(s.role.Other()).bag.ca != [] && s.me < |w.Of(s.role).locals|
    ensures s.me < |Apply(w, s).Of(s.role).bag.units| && s.me < |Apply(w, s).Of(s.role).locals|
    ensures w.Of(s.role).bag.leader < |w.Of(s.role).bag.units|
    ensures var us, told, l, them := w.Of(s.role).bag, Apply(w, s).Of(s.role).bag, w.Of(s.role).locals[s.me],
                                     w.Of(s.role.Other()).bag;
            var b, r, passes := us.units[s.me], told.units[s.me], MayPass(s.role, us.units[s.me], them);
            var tells := l.disk.trust != map[] && l.lastRestart > l.disk.modified;
            && told.ca
               == (if passes && s.role == BrokerApp && s.me == us.leader then us.units[us.leader].bundle else us.ca)
            && (r.rotate <==> b.rotate && !passes)
            && (if passes && s.me == us.leader then told.rotating <==> exists u :: u in told.units && u.rotate
                else told.rotating == us.rotating)
            && r.published == (if tells then l.disk.trust.Values else b.published)
            && (if tells && s.me == us.leader
                then forall c :: c in told.trust <==> forall i: nat | i < |told.units| :: c in told.units[i].published
                else told.trust == us.trust)
            && (s.ConfigStep? ==>
                  (Apply(w, s).Of(s.role).locals[s.me].pending <==>
                     l.pending
                     || (passes && (s.properties || b.rotate || exists c ::
                          c in them.ca && c !in l.disk.trust.Values))))
  {
    hide Apply, BagAfter, LocalAfter, WellFormedApp, MayPass;
    var app, them := w.Of(s.role), w.Of(s.role.Other()).bag;
    StepHere(w, s);
    Sized(w, s.role);
    PassBagWrites(s, app.locals[s.me], app.bag, them);
    if s.ConfigStep? { PassAsks(s, app.locals[s.me], app.bag, them, w.clock + 1); }
  }

  lemma PassBagWrites(s: Step, l: Local, us: AppBag, them: AppBag)
    requires (s.ConfigStep? || s.StatusStep?) && Fits(s, us) && them.ca != []
    ensures var told := BagAfter(s, l, us, them);
            var b, r, passes := us.units[s.me], told.units[s.me], MayPass(s.role, us.units[s.me], them);
            var tells := l.disk.trust != map[] && l.lastRestart > l.disk.modified;
            && told.ca
               == (if passes && s.role == BrokerApp && s.me == us.leader then us.units[us.leader].bundle else us.ca)
            && (r.rotate <==> b.rotate && !passes)
            && (if passes && s.me == us.leader then told.rotating <==> exists u :: u in told.units && u.rotate
                else told.rotating == us.rotating)
            && r.published == (if tells then l.disk.trust.Values else b.published)
            && (if tells && s.me == us.leader
                then forall c :: c in told.trust <==> forall i: nat | i < |told.units| :: c in told.units[i].published
                else told.trust == us.trust)
  {
    hide MayPass, Free, HeldBack, TrustedByAll, PassBag, PassDone, PublishTrust;
    MayPassMeans(s.role, us.units[s.me], them);
    FreeNotHeld(s.role, l, us, them, s.me);
    PassDetails(s.role, l, us, them, s.me, s.properties, 0);
    PublishKeeps(l, us, s.me, false);
    PublishWrites(l, us, s.me);
    PassTrust(s.role, l, us, them, s.me);
    var told, pub := BagAfter(s, l, us, them), PublishTrust(l, us, s.me, false);
    DoneWrites(s.role, pub, s.me);
    forall c ensures c in TrustedByAll(pub.units) <==>
      forall i: nat | i < |told.units| :: c in told.units[i].published {
      TrustedByAllMeans(pub.units, c);
    }
  }

  lemma PublishWrites(l: Local, us: AppBag, me: nat)
    requires WellFormed(us) && me < |us.units|
    ensures var told, tells := PublishTrust(l, us, me, false), l.disk.trust != map[] && l.lastRestart > l.disk.modified;
            && told.units[me].published == (if tells then l.disk.trust.Values else us.units[me].published)
            && told.trust == (if tells && me == us.leader then TrustedByAll(told.units) else us.trust)
  {
    hide TrustedByAll;
  }

  lemma DoneWrites(role: Role, us: AppBag, me: nat)
    requires WellFormed(us) && me < |us.units|
    ensures var told := PassDone(role, us, me);
            && told.ca == (if role == BrokerApp && me == us.leader then us.units[me].bundle else us.ca)
            && !told.units[me].rotate
            && (if me == us.leader then told.rotating <==> exists u :: u in told.units && u.rotate
                else told.rotating == us.rotating)
  {
  }

  lemma PassAsks(s: Step, l: Local, us: AppBag, them: AppBag, now: nat)
    requires s.ConfigStep? && Fits(s, us) && them.ca != []
    ensures LocalAfter(s, l, us, them, now).pending <==>
              || l.pending
              || (MayPass(s.role, us.units[s.me], them)
                  && (s.properties || us.units[s.me].rotate || exists c :: c in them.ca && c !in l.disk.trust.Values))
  {
    hide MayPass, Free, HeldBack, PublishTrust, PeerPass;
    MayPassMeans(s.role, us.units[s.me], them);
    FreeNotHeld(s.role, l, us, them, s.me);
    PassFixedPoint(l.disk, them.ca, now);
    PassUpdates(l.disk, them.ca, now);
    InMembers(them.ca);
  }

  // ---- Certificates and restarts ----

  /** What a certificate that arrives writes, a new one or one delivered again: the bundle; the unit's flag, if the
      certificate or its CA is another one; at the leader the offer, and the application's flag with the unit's.
      Trust and what is loaded stay, and nothing asks for a restart. */
  lemma CertificateWrites(s: Step, l: Local, us: AppBag, them: AppBag, now: nat)
    requires s.CertificateStep? && Fits(s, us)
    ensures var told, r, b := BagAfter(s, l, us, them), LocalAfter(s, l, us, them, now), us.units[s.me];
            && told.units[s.me].bundle == s.bundle && told.units[s.me].published == b.published
            && (told.units[s.me].rotate <==> b.rotate || s.bundle[0] != b.bundle[0] || s.bundle[1] != b.bundle[1])
            && told.ca == (if s.me == us.leader then s.bundle else us.ca)
            && (told.rotating <==> us.rotating || (s.me == us.leader && told.units[s.me].rotate))
            && told.trust == us.trust && told.leader == us.leader
            && r.pending == l.pending && r.loadedTrust == l.loadedTrust && r.loadedKey == l.loadedKey
            && r.lastRestart == l.lastRestart
  {
    hide Install;
  }

  /** And the store: the new bundle and the other side's offer, and under `old-` aliases the bundle before, exactly
      if the CA is another one. */
  lemma CertificateInstalls(s: Step, l: Local, us: AppBag, them: AppBag, now: nat)
    requires s.CertificateStep? && Fits(s, us)
    ensures var t, was := LocalAfter(s, l, us, them, now).disk.trust, us.units[s.me].bundle;
            var renewed := s.bundle[1] != was[1];
            && t.Values == Members(s.bundle) + Members(them.ca) + (if renewed then Members(was) else {})
            && (forall i: nat :: Bundle(i) in t <==> i < |s.bundle|)
            && (forall i: nat | i < |s.bundle| :: t[Bundle(i)] == s.bundle[i])
            && (forall i: nat :: NewClusterTls(i) !in t)
            && (forall i: nat :: OldBundle(i) in t ==> renewed && i < |was| && t[OldBundle(i)] == was[i])
  {
    hide Install, FilesHold, PeersFiled, Members;
    var was := us.units[s.me].bundle;
    var kept := if s.bundle[1] != was[1] then was else [];
    InstallExact(s.bundle, them.ca, kept, now);
    NoneIn();
  }

  lemma NoneIn()
    ensures Members([]) == {}
  {
  }

  /** What a restart writes: the process loads what is on disk; the store is published, and the wish to restart
      is gone, if the workload is healthy afterwards, and neither otherwise. */
  lemma RestartWrites(s: Step, l: Local, us: AppBag, them: AppBag, now: nat)
    requires s.RestartStep? && Fits(s, us) && l.disk.trust != map[]
    ensures var told, r := BagAfter(s, l, us, them), LocalAfter(s, l, us, them, now);
            && r.disk == l.disk && r.loadedTrust == l.disk.trust && r.loadedKey == l.disk.keystore
            && r.lastRestart == now && (r.pending <==> l.pending && !s.healthy)
            && (if s.healthy
                then && told.units[s.me] == us.units[s.me].(published := l.disk.trust.Values)
                     && told.ca == us.ca && told.rotating == us.rotating && told.leader == us.leader
                     && (if s.me == us.leader
                         then forall c :: c in told.trust <==>
                           forall i: nat | i < |told.units| :: c in told.units[i].published
                         else told.trust == us.trust)
                else told == us)
  {
    hide TrustedByAll;
    var told := BagAfter(s, l, us, them);
    forall c ensures c in TrustedByAll(told.units) <==>
      forall i: nat | i < |told.units| :: c in told.units[i].published {
      TrustedByAllMeans(told.units, c);
    }
  }

  // ---- A lost relation ----

  /** What a lost certificates relation writes: the new bundle, the unit's flag, at the leader the offer, and
      nothing else; the store starts over with the new bundle, the other side's offer and the bundle before. */
  lemma BrokenWrites(w: World, s: Step)
    requires WellFormedWorld(w) && Enabled(w, s) && s.BrokenStep? && s.me < |w.Of(s.role).locals|
    ensures s.me < |Apply(w, s).Of(s.role).bag.units| && s.me < |Apply(w, s).Of(s.role).locals|
    ensures var us, told := w.Of(s.role).bag, Apply(w, s).Of(s.role).bag;
            && told.units[s.me] == us.units[s.me].(bundle := s.bundle, rotate := true)
            && told.ca == (if s.me == us.leader then s.bundle else us.ca)
            && told.rotating == us.rotating && told.trust == us.trust
    ensures var l, r, them := w.Of(s.role).locals[s.me], Apply(w, s).Of(s.role).locals[s.me], w.Of(s.role.Other()).bag;
            var was := w.Of(s.role).bag.units[s.me].bundle;
            && r.disk.trust.Values == Members(s.bundle) + Members(them.ca) + Members(was)
            && (forall i: nat | i < |s.bundle| :: Bundle(i) in r.disk.trust && r.disk.trust[Bundle(i)] == s.bundle[i])
            && r.pending == l.pending && r.loadedTrust == l.loadedTrust && r.loadedKey == l.loadedKey
  {
    hide Install, FilesHold, PeersFiled, Members;
    StepHere(w, s);
    InstallExact(s.bundle, w.Of(s.role.Other()).bag.ca, w.Of(s.role).bag.units[s.me].bundle, w.clock + 1);
  }

  /** What a pass does to its unit's store. */
  lemma PassStores(w: World, s: Step)
    requires WellFormedWorld(w) && Enabled(w, s) && s.ConfigStep? && s.me < |w.Of(s.role).locals|
    requires w.Of(s.role.Other()).bag.ca != []
    ensures s.me < |Apply(w, s).Of(s.role).locals|
    ensures Apply(w, s).Of(s.role).locals[s.me].disk
            == PeerPass(w.Of(s.role).locals[s.me].disk, w.Of(s.role.Other()).bag.ca, w.clock + 1)
  {
    hide Apply, BagAfter, LocalAfter, PeerPass, WellFormedApp, PassLocal, PassBag;
    var app, them := w.Of(s.role), w.Of(s.role.Other()).bag;
    StepHere(w, s);
    ConfigIs(s, app.locals[s.me], app.bag, them, w.clock + 1);
    PassLocalShape(s.role, app.locals[s.me], app.bag, them, s.me, s.properties, w.clock + 1);
  }

  lemma PassBrings(d: Disk, bundle: seq<Certificate>, now: nat, c: Certificate)
    requires c in bundle && c !in d.trust.Values
    ensures c in PeerPass(d, bundle, now).trust.Values
  {
    var i: nat :| i < |bundle| && bundle[i] == c;
    var entries := Placed(d.trust, bundle, |bundle|);
    assert PeerAlias(d.trust, i) in entries;
    assert PeerPass(d, bundle, now).trust[PeerAlias(d.trust, i)] == c;
  }

  /** The leader loses its relation, and a remote unit passes: the unit's store has then every certificate of the
      new bundle that it did not have, and the whole of it if it had no `new-` entries. */
  lemma LostRelationReaches(w: World, b: Step, c: Step)
    requires WellFormedWorld(w) && Enabled(w, b) && b.BrokenStep? && b.me == w.Of(b.role).bag.leader
    requires Enabled(Apply(w, b), c) && c.ConfigStep? && c.role == b.role.Other() && c.me < |w.Of(c.role).locals|
    ensures var r := Apply(Apply(w, b), c).Of(c.role);
            && c.me < |r.locals|
            && var t, now := w.Of(c.role).locals[c.me].disk.trust, r.locals[c.me].disk.trust;
               && (forall x | x in b.bundle && x !in t.Values :: x in now.Values)
               && ((forall i: nat :: NewClusterTls(i) !in t) ==> forall x | x in b.bundle :: x in now.Values)
  {
    hide Apply, PeerPass, WellFormedApp, Members;
    var m := Apply(w, b);
    LeaderBreaks(w, b);
    PassStores(m, c);
    var d := w.Of(c.role).locals[c.me].disk;
    forall x | x in b.bundle && x !in d.trust.Values ensures x in PeerPass(d, b.bundle, m.clock + 1).trust.Values {
      PassBrings(d, b.bundle, m.clock + 1, x);
    }
    if forall i: nat :: NewClusterTls(i) !in d.trust {
      FirstPass(d, b.bundle, m.clock + 1);
      InMembers(b.bundle);
    }
  }

  lemma LeaderBreaks(w: World, b: Step)
    requires WellFormedWorld(w) && Enabled(w, b) && b.BrokenStep? && b.me == w.Of(b.role).bag.leader
    ensures Apply(w, b).Of(b.role).bag.ca == b.bundle && b.bundle != []
    ensures Apply(w, b).Of(b.role.Other()) == w.Of(b.role.Other()) && b.role.Other().Other() == b.role
  {
    hide Apply;
    Sized(w, b.role);
    StepElsewhere(w, b, b.role.Other(), 0);
    BrokenWrites(w, b);
  }

  /** Within the plan, every CA certificate of the new bundle gets there, whatever the store held. */
  lemma LostRelationAdopted(p: Plan, w: World, o: Offers, b: Step, c: Step)
    requires GoodPlan(p) && WellFormedWorld(w) && Sound(p, w, o)
    requires Enabled(w, b) && Moving(p, w, b) && b.BrokenStep? && b.me == w.Of(b.role).bag.leader
    requires Enabled(Apply(w, b), c) && c.ConfigStep? && c.role == b.role.Other() && c.me < |w.Of(c.role).locals|
    ensures c.me < |Apply(Apply(w, b), c).Of(c.role).locals|
    ensures forall x | x in b.bundle && x.Authority? ::
              x in Apply(Apply(w, b), c).Of(c.role).locals[c.me].disk.trust.Values
  {
    hide Apply, PeerPass, WellFormedApp, Sound, Moving, GoodPlan, GoodGeneration, Apart, IsBefore, IsAfter, Stored,
      Coherent, BagOk, Enabled;
    var m := Apply(w, b);
    LeaderBreaks(w, b);
    PassStores(m, c);
    LostRelationReaches(w, b, c);
    StepSound(p, w, o, b);
    var later := OffersAfter(p, m, o, b.role);
    StepReadyPass(p, m, later, c);
    var d := m.Of(c.role).locals[c.me].disk;
    forall x | x in b.bundle && x.Authority? ensures x in PeerPass(d, b.bundle, m.clock + 1).trust.Values {
      if x !in d.trust.Values { PassBrings(d, b.bundle, m.clock + 1, x); }
    }
  }

  /** A pass of a unit in order loses no CA certificate. */
  lemma StepReadyPass(p: Plan, w: World, o: Offers, s: Step)
    requires GoodPlan(p) && WellFormedWorld(w) && Sound(p, w, o) && Enabled(w, s) && s.ConfigStep?
    requires s.me < |w.Of(s.role).locals|
    ensures var d, ca := w.Of(s.role).locals[s.me].disk, w.Of(s.role.Other()).bag.ca;
            forall x | x in d.trust.Values && x.Authority? :: x in PeerPass(d, ca, w.clock + 1).trust.Values
  {
    hide Apply, PeerPass, WellFormedApp, Sound, GoodPlan, GoodGeneration, Apart, IsBefore, IsAfter, Stored, Coherent,
      BagOk, Offer;
    StepReady(p, w, o, s);
    PassLosesNoAuthority(p.Of(s.role), p.Of(s.role.Other()), w.Of(s.role).bag.units[s.me].bundle,
                         w.Of(s.role).locals[s.me].disk, w.Of(s.role.Other()).bag.ca,
                         o.Of(s.role.Other()), w.clock + 1);
  }
}
