/** Ways to finish the rotation: the application that is not held back goes first, and the broker side may
    go first once the controller application has announced its rotation. */
module RotationFinish {
  import opened Truststore
  import opened Rotation
  import opened RotationSafety
  import opened RotationProgress

  ghost predicate Clear(w: World)
    requires WellFormedWorld(w)
  {
    !AnyRotating(w.broker.bag.units) && !AnyRotating(w.controller.bag.units)
  }

  /** Some sequence of hooks clears every rotation flag of both applications. */
  ghost predicate Clearable(w: World)
    requires WellFormedWorld(w)
  {
    exists steps :: Hooks(w, steps) && Clear(Run(w, steps))
  }

  ghost predicate Offered(us: AppBag)
    requires WellFormed(us)
  {
    us.ca == us.units[us.leader].bundle
  }

  ghost predicate BothOffered(w: World)
    requires WellFormedWorld(w)
  {
    forall role: Role :: Offered(w.Of(role).bag)
  }

  ghost predicate AllFree(role: Role, us: AppBag, them: AppBag) {
    forall i: nat | i < |us.units| :: Free(role, us.units[i], them)
  }

  // ---- Units that can be served ----

  /** The other side can come to trust the unit: its CA certificates are in its leader's bundle, or firmly
      in every remote store. */
  ghost predicate ServedUnit(b: UnitBag, us: AppBag, remote: App)
    requires WellFormed(us)
  {
    forall c | c in Authorities(b.bundle) ::
      c in us.units[us.leader].bundle
      || forall t: nat | t < |remote.locals| :: c in Firm(remote.locals[t].disk.trust)
  }

  ghost predicate Served(us: AppBag, remote: App)
    requires WellFormed(us)
  {
    forall i: nat | i < |us.units| && us.units[i].rotate :: ServedUnit(us.units[i], us, remote)
  }

  /** What the rotating units want the other side to trust. */
  function Needs(us: AppBag): set<Certificate> {
    set u, c | u in us.units && u.rotate && c in Authorities(u.bundle) :: c
  }

  lemma ServedWithin(us: AppBag, remote: App, t: nat)
    requires WellFormed(us) && Served(us, remote) && Offered(us) && t < |remote.locals|
    ensures Within(Needs(us), remote.locals[t], us)
  {
    hide Firm;
    forall c | c in Needs(us) ensures c in Members(us.ca) + Firm(remote.locals[t].disk.trust) {
      var u :| u in us.units && u.rotate && c in Authorities(u.bundle);
      var i :| 0 <= i < |us.units| && us.units[i] == u;
      assert ServedUnit(us.units[i], us, remote);
    }
  }

  lemma NeedsFree(role: Role, us: AppBag, them: AppBag)
    requires Needs(us) <= them.trust
    ensures AllFree(role, us, them)
  {
    forall i: nat, c | i < |us.units| && us.units[i].rotate && c in Authorities(us.units[i].bundle)
      ensures c in them.trust
    {
      assert us.units[i] in us.units;
      assert c in Needs(us);
    }
  }

  // ---- Ways to finish ----

  lemma ReachClear(w: World, r: World)
    requires WellFormedWorld(w) && WellFormedWorld(r) && Reach(w, r) && Clear(r)
    ensures Clearable(w)
  {
    hide Run, Runs, Clear, WellFormedApp;
  }

  lemma ClearableFrom(w: World, m: World)
    requires WellFormedWorld(w) && WellFormedWorld(m) && Reach(w, m) && Clearable(m)
    ensures Clearable(w)
  {
    hide Run, Runs, Clear, WellFormedApp;
    var steps :| Hooks(m, steps) && Clear(Run(m, steps));
    ReachOn(w, m, steps);
    ReachClear(w, Run(m, steps));
  }

  lemma ClearFromParts(w: World, role: Role)
    requires WellFormedWorld(w)
    requires forall i: nat | i < |w.Of(role).bag.units| :: !w.Of(role).bag.units[i].rotate
    requires forall i: nat | i < |w.Of(role.Other()).bag.units| :: !w.Of(role.Other()).bag.units[i].rotate
    ensures Clear(w)
  {
    assert !AnyRotating(w.Of(role).bag.units) && !AnyRotating(w.Of(role.Other()).bag.units);
    if role.BrokerApp? {} else {}
  }

  lemma WholeApp(w: World, role: Role)
    requires WellFormedWorld(w)
    ensures WellFormedApp(w.Of(role)) && |w.Of(role).locals| == |w.Of(role).bag.units| && WellFormed(w.Of(role).bag)
  {
  }

  lemma FreeAble(role: Role, app: App, them: AppBag, cs: set<Certificate>)
    requires WellFormedApp(app) && AllFree(role, app.bag, them)
    requires forall i: nat | i < |app.locals| :: Within(cs, app.locals[i], them)
    ensures AllAble(role, app, them, cs)
  {
    hide Free, Within, CanTell, CanRefresh;
  }

  /** Once one application is not held back anywhere, both finish: that one first. */
  lemma Finish(w: World, role: Role)
    requires WellFormedWorld(w) && Base(w) && AllFree(role, w.Of(role).bag, w.Of(role.Other()).bag)
    requires WellFormed(w.Of(role.Other()).bag) && Offered(w.Of(role.Other()).bag)
    requires Served(w.Of(role.Other()).bag, w.Of(role))
    ensures Clearable(w)
  {
    hide Base, Reach, WellFormedApp, Hooks, Free, Clear, Members, AllFree, Served, Needs, AllAble, Within, Offered,
      ToldFrom;
    WholeApp(w, role);
    var cs := Needs(w.Of(role.Other()).bag);
    forall i: nat | i < |w.Of(role).locals| ensures Within(cs, w.Of(role).locals[i], w.Of(role.Other()).bag) {
      ServedWithin(w.Of(role.Other()).bag, w.Of(role), i);
    }
    FreeAble(role, w.Of(role), w.Of(role.Other()).bag, cs);
    var m := TellAll(w, role, cs);
    ToldOther(w, m, role, cs);
    assert role.Other().Other() == role;
    WholeApp(m, role.Other());
    NeedsFree(role.Other(), m.Of(role.Other()).bag, m.Of(role).bag);
    forall i: nat | i < |m.Of(role.Other()).locals| ensures Within({}, m.Of(role.Other()).locals[i], m.Of(role).bag) {
      NothingWithin(m.Of(role.Other()).locals[i], m.Of(role).bag);
    }
    FreeAble(role.Other(), m.Of(role.Other()), m.Of(role).bag, {});
    var r := TellAll(m, role.Other(), {});
    ReachJoin(w, m, r);
    BothClear(w, m, r, role, cs);
    ReachClear(w, r);
  }

  lemma NothingWithin(l: Local, them: AppBag)
    ensures Within({}, l, them)
  {
  }

  lemma ToldOther(w: World, m: World, role: Role, cs: set<Certificate>)
    requires WellFormedWorld(w) && WellFormedWorld(m) && ToldFrom(w, m, role, Indices(|w.Of(role).locals|), cs)
    ensures m.Of(role.Other()) == w.Of(role.Other())
  {
    hide Free, Firm;
  }

  lemma BothClear(w: World, m: World, r: World, role: Role, cs: set<Certificate>)
    requires WellFormedWorld(w) && WellFormedWorld(m) && WellFormedWorld(r)
    requires AllFree(role, w.Of(role).bag, w.Of(role.Other()).bag)
    requires ToldFrom(w, m, role, Indices(|w.Of(role).locals|), cs)
    requires AllFree(role.Other(), m.Of(role.Other()).bag, m.Of(role).bag)
    requires ToldFrom(m, r, role.Other(), Indices(|m.Of(role.Other()).locals|), {})
    ensures Clear(r)
  {
    hide Free, Clear, Members, Firm;
    assert role.Other().Other() == role;
    Sized(w, role);
    Sized(m, role.Other());
    ClearFromParts(r, role);
  }

  /** Some controller beside the leader is rotating. */
  ghost predicate OthersRotate(us: AppBag) {
    exists i: nat :: i < |us.units| && i != us.leader && us.units[i].rotate
  }

  /** What a controller leader's pass through the gate leaves behind. */
  lemma LeaderPass(w: World) returns (m: World)
    requires WellFormedWorld(w) && Base(w) && BothOffered(w)
    requires Free(ControllerApp, w.controller.bag.units[w.controller.bag.leader], w.broker.bag)
    ensures WellFormedWorld(m) && Base(m) && Reach(w, m) && m.broker == w.broker && BothOffered(m)
    ensures m.controller.bag.leader == w.controller.bag.leader
    ensures |m.controller.bag.units| == |w.controller.bag.units| == |w.controller.locals| == |m.controller.locals|
    ensures forall i: nat | i < |m.controller.bag.units| ::
              && m.controller.bag.units[i].bundle == w.controller.bag.units[i].bundle
              && (m.controller.bag.units[i].rotate <==>
                 i != w.controller.bag.leader && w.controller.bag.units[i].rotate)
              && Firm(w.controller.locals[i].disk.trust) <= Firm(m.controller.locals[i].disk.trust)
    ensures m.controller.bag.rotating <==> OthersRotate(w.controller.bag)
  {
    hide Base, Reach, WellFormedApp, PublishTrust, PeerPass, AnyRotating, GateOpen, Firm, PassDone, Offered;
    Sized(w, ControllerApp);
    Sized(w, BrokerApp);
    var leader := w.controller.bag.leader;
    assert w.Of(ControllerApp) == w.controller && w.Of(ControllerApp.Other()) == w.broker;
    assert Offered(w.Of(ControllerApp).bag) && Offered(w.Of(BrokerApp).bag);
    m := OnePass(w, ControllerApp, leader);
    Sized(m, ControllerApp);
    Sized(m, BrokerApp);
    assert m.Of(ControllerApp) == m.controller && m.Of(ControllerApp.Other()) == m.broker;
    var l, us := w.controller.locals[leader], w.controller.bag;
    PublishKeeps(l, us, leader, false);
    DoneFlag(ControllerApp, PublishTrust(l, us, leader, false), leader);
    FlagIs(us, m.controller.bag, leader);
    StillOffered(us, m.controller.bag);
    forall role: Role ensures Offered(m.Of(role).bag) { if role.BrokerApp? {} else {} }
  }

  lemma DoneFlag(role: Role, us: AppBag, me: nat)
    requires WellFormed(us) && me == us.leader
    ensures PassDone(role, us, me).rotating == AnyRotating(PassDone(role, us, me).units)
  {
    hide AnyRotating;
  }

  lemma FlagIs(us: AppBag, told: AppBag, leader: nat)
    requires |told.units| == |us.units| && leader == us.leader < |us.units| && !told.units[leader].rotate
    requires forall i: nat | i < |us.units| && i != leader :: told.units[i] == us.units[i]
    ensures AnyRotating(told.units) <==> OthersRotate(us)
  {
    if u :| u in told.units && u.rotate {
      var i: nat :| i < |told.units| && told.units[i] == u;
      assert us.units[i].rotate;
    }
    if i: nat :| i < |us.units| && i != us.leader && us.units[i].rotate { assert told.units[i] in told.units; }
  }

  lemma StillOffered(us: AppBag, told: AppBag)
    requires WellFormed(us) && Offered(us) && told.leader == us.leader && |told.units| == |us.units|
    requires told.ca == us.ca || told.ca == us.units[us.leader].bundle
    requires told.units[us.leader].bundle == us.units[us.leader].bundle
    ensures WellFormed(told) && Offered(told)
  {
  }

  /** Fewer rotating units and firmer remote stores are served all the more. */
  lemma ServedLater(us: AppBag, told: AppBag, remote: App, later: App)
    requires WellFormed(us) && WellFormed(told) && Served(us, remote)
    requires |told.units| == |us.units| && told.leader == us.leader && |later.locals| == |remote.locals|
    requires forall i: nat | i < |us.units| ::
               told.units[i].bundle == us.units[i].bundle && (told.units[i].rotate ==> us.units[i].rotate)
    requires forall t: nat | t < |remote.locals| ::
             Firm(remote.locals[t].disk.trust) <= Firm(later.locals[t].disk.trust)
    ensures Served(told, later)
  {
    hide Firm, Authorities;
    forall i: nat | i < |told.units| && told.units[i].rotate ensures ServedUnit(told.units[i], told, later) {
      assert ServedUnit(us.units[i], us, remote);
    }
  }

  /** A controller leader that is not held back lets the rotation finish: its pass announces the rotation of
      the controllers that are left, and the brokers then go first; or no controller is left. */
  lemma FinishFromLeader(w: World)
    requires WellFormedWorld(w) && Base(w) && BothOffered(w) && WellFormed(w.controller.bag) && WellFormed(w.broker.bag)
    requires Served(w.controller.bag, w.broker)
    requires Served(w.broker.bag, w.controller) || w.controller.bag.rotating || OthersRotate(w.controller.bag)
    requires Free(ControllerApp, w.controller.bag.units[w.controller.bag.leader], w.broker.bag)
    ensures Clearable(w)
  {
    hide Base, Reach, WellFormedApp, Hooks, Clear, Firm, Served, GateOpen, Offered;
    assert w.Of(BrokerApp) == w.broker && w.Of(ControllerApp) == w.controller;
    if w.controller.bag.rotating {
      FinishAnnounced(w);
    } else {
      var m := LeaderPass(w);
      Sized(m, ControllerApp);
      Sized(m, BrokerApp);
      assert m.Of(BrokerApp) == m.broker && m.Of(ControllerApp) == m.controller;
      ServedLater(w.controller.bag, m.controller.bag, w.broker, m.broker);
      if OthersRotate(w.controller.bag) {
        FinishAnnounced(m);
      } else {
        ServedLater(w.broker.bag, m.broker.bag, w.controller, m.controller);
        assert AllFree(ControllerApp, m.controller.bag, m.broker.bag);
        assert Offered(m.Of(BrokerApp).bag);
        Finish(m, ControllerApp);
      }
      ClearableFrom(w, m);
    }
  }

  lemma FinishAnnounced(w: World)
    requires WellFormedWorld(w) && Base(w) && BothOffered(w) && WellFormed(w.controller.bag)
    requires Served(w.controller.bag, w.broker) && w.controller.bag.rotating
    ensures Clearable(w)
  {
    hide Base, Served, GateOpen, Offered;
    assert w.Of(BrokerApp) == w.broker && w.Of(BrokerApp.Other()) == w.controller;
    assert AllFree(BrokerApp, w.broker.bag, w.controller.bag);
    assert Offered(w.Of(ControllerApp).bag);
    Finish(w, BrokerApp);
  }

  /** Both leaders put their bundles on offer. */
  lemma OfferBoth(w: World) returns (r: World)
    requires WellFormedWorld(w) && Base(w)
    ensures WellFormedWorld(r) && Base(r) && BothOffered(r) && Reach(w, r)
    ensures r.broker == w.broker.(bag := w.broker.bag.(ca := r.broker.bag.ca))
    ensures r.controller == w.controller.(bag := w.controller.bag.(ca := r.controller.bag.ca))
    ensures WellFormed(r.broker.bag) && WellFormed(r.controller.bag)
  {
    hide Base, Reach;
    var b := OfferStep(BrokerApp, w.broker.bag.leader);
    var m := Apply(w, b);
    var c := OfferStep(ControllerApp, m.controller.bag.leader);
    r := Apply(m, c);
    StepBase(w, b);
    StepBase(m, c);
    ReachSelf(w);
    ReachStep(w, w, b);
    ReachStep(w, m, c);
    assert r.broker.locals == w.broker.locals && r.controller.locals == w.controller.locals;
    forall role: Role ensures Offered(r.Of(role).bag) {
      if role.BrokerApp? {} else {}
    }
  }

  /** Whatever is queued: when the controller leader is not rotating unannounced, the rotation can be
      finished. */
  lemma AnnouncedFinishes(w: World)
    requires WellFormedWorld(w) && Base(w) && Served(w.controller.bag, w.broker)
    requires Served(w.broker.bag, w.controller) || w.controller.bag.rotating || OthersRotate(w.controller.bag)
    requires w.controller.bag.units[w.controller.bag.leader].rotate ==> w.controller.bag.rotating
    ensures Clearable(w)
  {
    hide Base, Reach, WellFormedApp, Hooks, Clear, AnyRotating, Clearable, Served, Offered, Firm, BothOffered;
    var m := OfferBoth(w);
    Sized(w, BrokerApp);
    Sized(w, ControllerApp);
    ServedLater(w.controller.bag, m.controller.bag, w.broker, m.broker);
    if Served(w.broker.bag, w.controller) { ServedLater(w.broker.bag, m.broker.bag, w.controller, m.controller); }
    if m.controller.bag.rotating {
      FinishAnnounced(m);
    } else {
      FinishFromLeader(m);
    }
    ClearableFrom(w, m);
  }
}
