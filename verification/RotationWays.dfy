/** Exactly when the hooks of the two charms can clear every rotation flag, as conditions on the databags
    and stores before any hook runs, and which runs meet them. */
module RotationWays {
  import opened Truststore
  import opened Rotation
  import opened RotationSafety
  import opened RotationCleanup
  import opened RotationGate
  import opened RotationProgress
  import opened RotationFinish
  import opened RotationDeadlock

  /** A rotating unit with other CA certificates than its leader. */
  predicate Odd(us: AppBag, i: nat)
    requires WellFormed(us)
  {
    i < |us.units| && us.units[i].rotate && !Alike(us, i)
  }

  ghost predicate SomeOdd(us: AppBag)
    requires WellFormed(us)
  {
    exists i: nat :: Odd(us, i)
  }

  /** Rotating units have the leader's CA certificates, or are strange. */
  ghost predicate Matched(us: AppBag, remote: App)
    requires WellFormed(us)
  {
    forall i: nat | Odd(us, i) :: Strange(us, i, remote)
  }

  /** The same of both applications. */
  ghost predicate MatchedWorld(w: World)
    requires WellFormedWorld(w)
  {
    && WellFormed(w.broker.bag) && WellFormed(w.controller.bag)
    && Matched(w.broker.bag, w.controller) && Matched(w.controller.bag, w.broker)
  }

  /** Rotating units can be served, or are strange. */
  ghost predicate Sorted(us: AppBag, remote: App)
    requires WellFormed(us)
  {
    forall i: nat | i < |us.units| && us.units[i].rotate ::
      ServedUnit(us.units[i], us, remote) || Strange(us, i, remote)
  }

  // ---- When the rotation of the controller leader is announced ----

  /** With a controller leader that does not rotate unannounced, strange units alone keep the flags up; the
      brokers among them need controllers that rotate. */
  lemma AnnouncedExactly(w: World)
    requires WellFormedWorld(w) && Base(w) && WellFormed(w.broker.bag) && WellFormed(w.controller.bag)
    requires Sorted(w.broker.bag, w.controller) && Sorted(w.controller.bag, w.broker)
    requires w.controller.bag.units[w.controller.bag.leader].rotate ==> w.controller.bag.rotating
    ensures Clearable(w) <==>
              && !SomeStrange(w.controller.bag, w.broker)
              && (SomeStrange(w.broker.bag, w.controller) ==>
                    w.controller.bag.rotating || OthersRotate(w.controller.bag))
  {
    hide Base, Clearable, OthersRotate, ServedUnit, CoherentWorld, WellFormedApp, Strange;
    BaseCoherent(w);
    if SomeStrange(w.controller.bag, w.broker) {
      StrangeControllerWaits(w);
    } else if SomeStrange(w.broker.bag, w.controller) && !w.controller.bag.rotating && !OthersRotate(w.controller.bag) {
      StrangeBrokerWaits(w);
    } else {
      AnnouncedFinishes(w);
    }
  }

  lemma BaseCoherent(w: World)
    requires WellFormedWorld(w) && Base(w)
    ensures CoherentWorld(w)
  {
    hide CoherentWorld;
  }

  // ---- In general ----

  /** The application can come to trust `cs` without passing the gate. */
  ghost predicate Tellers(app: App, cs: set<Certificate>)
    requires WellFormedApp(app)
  {
    && (forall i: nat | i < |app.locals| :: CanTell(app.locals[i], app.bag.units[i], cs))
    && CanRefresh(app.locals[app.bag.leader], app.bag.units[app.bag.leader], cs)
  }

  /** The controllers trust what the brokers' leader offers, or can come to trust it. */
  ghost predicate Helped(w: World)
    requires WellFormedWorld(w) && WellFormed(w.broker.bag)
  {
    LeadSet(w.broker.bag) <= w.controller.bag.trust || Tellers(w.controller, LeadSet(w.broker.bag))
  }

  /** Broker `i` can publish what the controllers' leader offers. */
  ghost predicate Serves(w: World, i: nat)
    requires WellFormedWorld(w) && WellFormed(w.broker.bag) && WellFormed(w.controller.bag)
    requires i < |w.broker.locals| && i < |w.broker.bag.units|
  {
    || CanTell(w.broker.locals[i], w.broker.bag.units[i], LeadSet(w.controller.bag))
    || (Helped(w) && !Odd(w.broker.bag, i))
  }

  /** The gate opens for the controller leader, unannounced. */
  ghost predicate Opens(w: World)
    requires WellFormedWorld(w) && WellFormed(w.broker.bag) && WellFormed(w.controller.bag)
  {
    var b, c := w.broker, w.controller;
    || !c.bag.units[c.bag.leader].rotate
    || LeadSet(c.bag) <= b.bag.trust
    || (&& (forall i: nat | i < |b.locals| :: i < |b.bag.units| && Serves(w, i))
        && (CanRefresh(b.locals[b.bag.leader], b.bag.units[b.bag.leader], LeadSet(c.bag)) || Helped(w)))
  }

  /** The condition under which the hooks can finish. */
  ghost predicate Way(w: World)
    requires WellFormedWorld(w) && WellFormed(w.broker.bag) && WellFormed(w.controller.bag)
  {
    && !SomeOdd(w.controller.bag)
    && (|| w.controller.bag.rotating
        || (Opens(w) && (SomeOdd(w.broker.bag) ==> OthersRotate(w.controller.bag))))
  }

  // ---- Where there is a way ----

  lemma AlikeServed(us: AppBag, remote: App)
    requires WellFormed(us) && !SomeOdd(us)
    ensures Served(us, remote)
  {
    hide Firm;
    forall i: nat | i < |us.units| && us.units[i].rotate ensures ServedUnit(us.units[i], us, remote) {
      assert !Odd(us, i);
      forall c | c in Authorities(us.units[i].bundle) ensures c in us.units[us.leader].bundle {
        assert c in LeadSet(us);
      }
    }
  }

  lemma LeadOffered(us: AppBag, l: Local)
    requires WellFormed(us) && Offered(us)
    ensures Within(LeadSet(us), l, us)
  {
    hide Firm;
  }

  /** Bundles, leaders and offers are the same; only brokers may have stopped rotating. */
  ghost predicate Later(us: AppBag, told: AppBag) {
    && WellFormed(us) && WellFormed(told) && told.leader == us.leader && |told.units| == |us.units|
    && forall i: nat | i < |us.units| ::
         told.units[i].bundle == us.units[i].bundle && (told.units[i].rotate ==> us.units[i].rotate)
  }

  lemma LaterEven(us: AppBag, told: AppBag)
    requires Later(us, told)
    ensures LeadSet(told) == LeadSet(us) && forall i: nat :: Odd(told, i) ==> Odd(us, i)
  {
  }

  lemma ToldLater(w: World, m: World, role: Role, cs: set<Certificate>)
    requires WellFormedWorld(w) && WellFormedWorld(m) && BothOffered(w) && WellFormed(m.Of(role).bag)
    requires ToldFrom(w, m, role, Indices(|w.Of(role).locals|), cs)
    ensures Later(w.Of(role).bag, m.Of(role).bag) && BothOffered(m) && m.Of(role.Other()) == w.Of(role.Other())
  {
    hide ToldFrom, WellFormedApp, Offered;
    ToldParts(w, m, role, cs);
    OfferedAt(w, role);
    OfferedAt(w, role.Other());
    StillOffered(w.Of(role).bag, m.Of(role).bag);
    forall x: Role ensures Offered(m.Of(x).bag) { if x != role { assert x == role.Other(); } }
  }

  lemma ToldParts(w: World, m: World, role: Role, cs: set<Certificate>)
    requires WellFormedWorld(w) && WellFormedWorld(m)
    requires ToldFrom(w, m, role, Indices(|w.Of(role).locals|), cs)
    ensures var us, told := w.Of(role).bag, m.Of(role).bag;
            && Later(us, told) && m.Of(role.Other()) == w.Of(role.Other())
            && (told.ca == us.ca || told.ca == us.units[us.leader].bundle)
            && told.units[us.leader].bundle == us.units[us.leader].bundle
  {
    hide GateOpen, Firm;
    Sized(w, role);
    Sized(m, role);
  }

  /** The controllers publish the brokers' CA certificates first, without passing the gate. */
  lemma HelpFirst(w: World) returns (m: World)
    requires WellFormedWorld(w) && WellFormedApp(w.controller) && Base(w) && BothOffered(w)
    requires WellFormed(w.broker.bag) && WellFormed(w.controller.bag) && !SomeOdd(w.controller.bag)
    requires !(LeadSet(w.controller.bag) <= w.broker.bag.trust) && Tellers(w.controller, LeadSet(w.broker.bag))
    ensures WellFormedWorld(m) && Base(m) && Reach(w, m) && BothOffered(m)
    ensures m.broker == w.broker && Later(w.controller.bag, m.controller.bag)
    ensures LeadSet(w.broker.bag) <= m.controller.bag.trust
    ensures forall i: nat | i < |w.controller.bag.units| ::
            m.controller.bag.units[i].rotate == w.controller.bag.units[i].rotate
  {
    hide Base, Reach, WellFormedApp, Firm, LeadSet, BothOffered, Within, CanTell, CanRefresh, Offered, GateOpen,
      ToldFrom;
    assert w.Of(ControllerApp) == w.controller && w.Of(ControllerApp.Other()) == w.broker;
    Sized(w, ControllerApp);
    var cs := LeadSet(w.broker.bag);
    assert Offered(w.broker.bag) by { OfferedAt(w, BrokerApp); }
    forall i: nat | i < |w.controller.locals| ensures Within(cs, w.controller.locals[i], w.broker.bag) {
      LeadOffered(w.broker.bag, w.controller.locals[i]);
    }
    m := TellAll(w, ControllerApp, cs);
    assert m.Of(ControllerApp) == m.controller && m.Of(ControllerApp.Other()) == m.broker;
    ToldLater(w, m, ControllerApp, cs);
    forall i: nat | i < |w.controller.bag.units|
      ensures m.controller.bag.units[i].rotate == w.controller.bag.units[i].rotate
    {
      assert !Odd(w.controller.bag, i);
      if w.controller.bag.units[i].rotate { AlikeHeld(w.controller.bag, i, w.broker.bag); }
      ToldRotates(w, m, ControllerApp, cs, i);
    }
  }

  lemma OfferedAt(w: World, role: Role)
    requires WellFormedWorld(w) && BothOffered(w)
    ensures WellFormed(w.Of(role).bag) && Offered(w.Of(role).bag)
  {
  }

  lemma AlikeHeld(us: AppBag, i: nat, them: AppBag)
    requires WellFormed(us) && i < |us.units| && Alike(us, i) && !(LeadSet(us) <= them.trust)
    ensures !GateOpen(us.units[i], them)
  {
    hide Authorities;
  }

  lemma ToldRotates(w: World, m: World, role: Role, cs: set<Certificate>, i: nat)
    requires WellFormedWorld(w) && WellFormedWorld(m) && i < |w.Of(role).locals|
    requires ToldFrom(w, m, role, Indices(|w.Of(role).locals|), cs)
    ensures i < |w.Of(role).bag.units| && i < |m.Of(role).bag.units|
    ensures m.Of(role).bag.units[i].rotate <==> !Free(role, w.Of(role).bag.units[i], w.Of(role.Other()).bag)
  {
    hide Free, Firm;
  }

  /** The brokers publish the controllers' CA certificates, and open the gate to the controller leader. */
  lemma ServeLeader(w: World)
    requires WellFormedWorld(w) && WellFormedApp(w.broker) && Base(w) && BothOffered(w)
    requires WellFormed(w.broker.bag) && WellFormed(w.controller.bag) && !SomeOdd(w.controller.bag)
    requires SomeOdd(w.broker.bag) ==> OthersRotate(w.controller.bag)
    requires forall i: nat | i < |w.broker.locals| ::
               Able(BrokerApp, w.broker.locals[i], w.broker.bag.units[i], w.controller.bag, LeadSet(w.controller.bag))
    requires var b := w.broker;
             || Free(BrokerApp, b.bag.units[b.bag.leader], w.controller.bag)
             || CanRefresh(b.locals[b.bag.leader], b.bag.units[b.bag.leader], LeadSet(w.controller.bag))
    ensures Clearable(w)
  {
    hide Base, Reach, WellFormedApp, Firm, LeadSet, BothOffered, Within, CanTell, CanRefresh, Offered, Free, ToldFrom,
      Able, OthersRotate, Clearable, Odd, Served;
    assert w.Of(BrokerApp) == w.broker && w.Of(BrokerApp.Other()) == w.controller;
    Sized(w, BrokerApp);
    var cs := LeadSet(w.controller.bag);
    assert Offered(w.controller.bag) by { OfferedAt(w, ControllerApp); }
    forall i: nat | i < |w.broker.locals| ensures Within(cs, w.broker.locals[i], w.controller.bag) {
      LeadOffered(w.controller.bag, w.broker.locals[i]);
    }
    var m := TellAll(w, BrokerApp, cs);
    assert m.Of(BrokerApp) == m.broker && m.Of(BrokerApp.Other()) == m.controller;
    ToldLater(w, m, BrokerApp, cs);
    LaterEven(w.broker.bag, m.broker.bag);
    OpenToLeader(m);
    ClearableFrom(w, m);
  }

  lemma OpenToLeader(w: World)
    requires WellFormedWorld(w) && Base(w) && BothOffered(w)
    requires WellFormed(w.broker.bag) && WellFormed(w.controller.bag) && !SomeOdd(w.controller.bag)
    requires SomeOdd(w.broker.bag) ==> OthersRotate(w.controller.bag)
    requires w.controller.bag.units[w.controller.bag.leader].rotate ==> LeadSet(w.controller.bag) <= w.broker.bag.trust
    ensures Clearable(w)
  {
    hide Base, WellFormedApp, Odd, BothOffered, OthersRotate, Clearable, Served;
    AlikeServed(w.controller.bag, w.broker);
    if !SomeOdd(w.broker.bag) { AlikeServed(w.broker.bag, w.controller); }
    FinishFromLeader(w);
  }

  /** Both offers are out, nothing is announced, and the gate can be opened for the controller leader. */
  lemma FinishOpened(w: World)
    requires WellFormedWorld(w) && Base(w) && BothOffered(w)
    requires WellFormed(w.broker.bag) && WellFormed(w.controller.bag) && !SomeOdd(w.controller.bag)
    requires Opens(w) && (SomeOdd(w.broker.bag) ==> OthersRotate(w.controller.bag))
    ensures Clearable(w)
  {
    hide Base, Reach, WellFormedApp, BothOffered, OthersRotate, Clearable, Free, CanTell, CanRefresh, LeadSet, Odd,
      Tellers;
    Sized(w, BrokerApp);
    WholeApp(w, BrokerApp);
    WholeApp(w, ControllerApp);
    assert w.Of(BrokerApp) == w.broker && w.Of(ControllerApp) == w.controller;
    if !w.controller.bag.units[w.controller.bag.leader].rotate || LeadSet(w.controller.bag) <= w.broker.bag.trust {
      OpenToLeader(w);
    } else if LeadSet(w.broker.bag) <= w.controller.bag.trust || !Helped(w) {
      AbleToServe(w, w);
      ServeLeader(w);
    } else {
      var m := HelpFirst(w);
      assert m.Of(ControllerApp) == m.controller;
      WholeApp(m, BrokerApp);
      LaterEven(w.controller.bag, m.controller.bag);
      if SomeOdd(w.broker.bag) { StillRotate(w.controller.bag, m.controller.bag); }
      AbleToServe(w, m);
      ServeLeader(m);
      ClearableFrom(w, m);
    }
  }

  lemma StillRotate(us: AppBag, told: AppBag)
    requires Later(us, told) && OthersRotate(us)
    requires forall i: nat | i < |us.units| :: told.units[i].rotate == us.units[i].rotate
    ensures OthersRotate(told)
  {
    var i: nat :| i < |us.units| && i != us.leader && us.units[i].rotate;
    assert told.units[i].rotate;
  }

  /** Brokers that serve in `w` are able to, once the controllers trust what they offer. */
  lemma AbleToServe(w: World, m: World)
    requires WellFormedWorld(w) && WellFormedWorld(m) && m.broker == w.broker
    requires WellFormed(w.broker.bag) && WellFormed(w.controller.bag) && WellFormed(m.controller.bag)
    requires LeadSet(m.controller.bag) == LeadSet(w.controller.bag)
    requires Helped(w) ==> LeadSet(w.broker.bag) <= m.controller.bag.trust
    requires Opens(w) && w.controller.bag.units[w.controller.bag.leader].rotate
    requires !(LeadSet(w.controller.bag) <= w.broker.bag.trust)
    ensures |w.broker.locals| == |w.broker.bag.units|
    ensures forall i: nat | i < |w.broker.locals| ::
               Able(BrokerApp, w.broker.locals[i], w.broker.bag.units[i], m.controller.bag, LeadSet(w.controller.bag))
    ensures var b := w.broker;
            || Free(BrokerApp, b.bag.units[b.bag.leader], m.controller.bag)
            || CanRefresh(b.locals[b.bag.leader], b.bag.units[b.bag.leader], LeadSet(w.controller.bag))
  {
    hide Helped, CanTell, CanRefresh, Authorities;
    Sized(w, BrokerApp);
    assert w.Of(BrokerApp) == w.broker;
    forall i: nat | i < |w.broker.locals|
      ensures Able(BrokerApp, w.broker.locals[i], w.broker.bag.units[i], m.controller.bag, LeadSet(w.controller.bag))
    {
      assert Serves(w, i);
    }
    assert Alike(w.broker.bag, w.broker.bag.leader);
  }

  // ---- Where there is none ----

  lemma NoWayWaits(w: World)
    requires WellFormedWorld(w) && Base(w) && MatchedWorld(w) && !Way(w)
    ensures !Clearable(w)
  {
    hide Base, Clearable, OthersRotate, CoherentWorld, WellFormedApp, Strange, Odd, Opens;
    BaseCoherent(w);
    if SomeOdd(w.controller.bag) {
      var i: nat :| Odd(w.controller.bag, i);
      StrangeControllerWaits(w);
    } else if !Opens(w) {
      var brokers, controllers := Blockers(w);
      JamWaits(w, brokers, controllers);
    } else {
      var i: nat :| Odd(w.broker.bag, i);
      StrangeBrokerWaits(w);
    }
  }

  /** Who keeps the gate shut. */
  lemma Blockers(w: World) returns (brokers: set<nat>, controllers: set<nat>)
    requires WellFormedWorld(w) && MatchedWorld(w) && !w.controller.bag.rotating && !Opens(w)
    ensures Jam(w, brokers, controllers)
  {
    hide Strange, Authorities, CanTell, CanRefresh, LeadSet, Helped;
    Sized(w, BrokerApp);
    assert w.Of(BrokerApp) == w.broker;
    var b, cs := w.broker, LeadSet(w.controller.bag);
    var i: nat;
    if i0: nat :| i0 < |b.locals| && !Serves(w, i0) {
      i := i0;
      Untold(b.locals[i], b.bag.units[i], cs);
    } else {
      i := b.bag.leader;
      LeaderAlike(b.bag);
    }
    if Strange(b.bag, i, w.controller) {
      brokers, controllers := {i}, {w.controller.bag.leader};
      JamStrange(w, i);
    } else {
      assert !Odd(b.bag, i) && !Helped(w);
      var j := Unhelpful(w);
      BlockerRotates(b, i, cs);
      brokers, controllers := {i}, {w.controller.bag.leader, j};
      JamAlike(w, i, j);
    }
  }

  /** The controller leader and unit `j`, blocked by broker `i`. */
  lemma Blocked(us: AppBag, remote: App, j: nat, i: nat)
    requires WellFormed(us) && Blocks(remote, i, LeadSet(us)) && !(LeadSet(us) <= remote.bag.trust)
    requires j < |us.units| && us.units[j].rotate && (Alike(us, j) || Strange(us, j, remote))
    ensures Waiting(us, j, remote, {i})
  {
    hide Strange, Blocks, Authorities;
    assert i in {i};
    if Strange(us, j, remote) { StrangeRotates(us, j, remote); }
  }

  lemma JamStrange(w: World, i: nat)
    requires WellFormedWorld(w) && WellFormed(w.broker.bag) && WellFormed(w.controller.bag)
    requires !w.controller.bag.rotating && w.controller.bag.units[w.controller.bag.leader].rotate
    requires !(LeadSet(w.controller.bag) <= w.broker.bag.trust) && Blocks(w.broker, i, LeadSet(w.controller.bag))
    requires Strange(w.broker.bag, i, w.controller)
    ensures Jam(w, {i}, {w.controller.bag.leader})
  {
    hide Strange, Blocks, LeadSet, Alike, OthersRotate, GateOpen;
    LeaderAlike(w.controller.bag);
    Blocked(w.controller.bag, w.broker, w.controller.bag.leader, i);
    StrangeRotates(w.broker.bag, i, w.controller);
    assert i in {i};
  }

  lemma JamAlike(w: World, i: nat, j: nat)
    requires WellFormedWorld(w) && WellFormed(w.broker.bag) && WellFormed(w.controller.bag)
    requires !w.controller.bag.rotating && w.controller.bag.units[w.controller.bag.leader].rotate
    requires !(LeadSet(w.controller.bag) <= w.broker.bag.trust) && Blocks(w.broker, i, LeadSet(w.controller.bag))
    requires Alike(w.broker.bag, i) && !(LeadSet(w.broker.bag) <= w.controller.bag.trust)
    requires Blocks(w.controller, j, LeadSet(w.broker.bag))
    requires Alike(w.controller.bag, j) || Strange(w.controller.bag, j, w.broker)
    ensures Jam(w, {i}, {w.controller.bag.leader, j})
  {
    hide Strange, Blocks, LeadSet, OthersRotate, Alike, Waiting;
    LeaderAlike(w.controller.bag);
    BlockerRotates(w.broker, i, LeadSet(w.controller.bag));
    BlockerRotates(w.controller, j, LeadSet(w.broker.bag));
    Blocked(w.controller.bag, w.broker, w.controller.bag.leader, i);
    Blocked(w.controller.bag, w.broker, j, i);
    Blocked(w.broker.bag, w.controller, i, j);
    WaitingMore(w.broker.bag, i, w.controller, {j}, {w.controller.bag.leader, j});
  }

  lemma WaitingMore(us: AppBag, i: nat, remote: App, theirs: set<nat>, more: set<nat>)
    requires WellFormed(us) && Waiting(us, i, remote, theirs) && theirs <= more
    ensures Waiting(us, i, remote, more)
  {
    hide Strange, Blocks, GateOpen;
  }

  lemma LeaderAlike(us: AppBag)
    requires WellFormed(us)
    ensures Alike(us, us.leader)
  {
  }

  lemma Unhelpful(w: World) returns (j: nat)
    requires WellFormedWorld(w) && MatchedWorld(w) && !Helped(w)
    ensures !(LeadSet(w.broker.bag) <= w.controller.bag.trust) && Blocks(w.controller, j, LeadSet(w.broker.bag))
    ensures Alike(w.controller.bag, j) || Strange(w.controller.bag, j, w.broker)
  {
    hide Strange, Authorities, CanTell, CanRefresh, LeadSet;
    Sized(w, ControllerApp);
    assert w.Of(ControllerApp) == w.controller;
    var c, cs := w.controller, LeadSet(w.broker.bag);
    if j0: nat :| j0 < |c.locals| && !CanTell(c.locals[j0], c.bag.units[j0], cs) {
      j := j0;
      Untold(c.locals[j], c.bag.units[j], cs);
      assert Odd(c.bag, j) || Alike(c.bag, j);
    } else {
      j := c.bag.leader;
      LeaderAlike(c.bag);
    }
  }

  /** Whatever is queued, loaded or announced: exactly when the hooks can clear every flag. */
  lemma ClearableExactly(w: World)
    requires WellFormedWorld(w) && Base(w) && MatchedWorld(w)
    ensures Clearable(w) <==> Way(w)
  {
    hide Base, Clearable, OthersRotate, WellFormedApp, Odd, Opens, Matched;
    if Way(w) { WayFinishes(w); } else { NoWayWaits(w); }
  }

  lemma WayFinishes(w: World)
    requires WellFormedWorld(w) && Base(w) && WellFormed(w.broker.bag) && WellFormed(w.controller.bag) && Way(w)
    ensures Clearable(w)
  {
    hide Base, Reach, Clearable, OthersRotate, WellFormedApp, Odd, Opens, Served;
    var m := OfferBoth(w);
    SameEven(w.broker.bag, m.broker.bag);
    SameEven(w.controller.bag, m.controller.bag);
    if m.controller.bag.rotating {
      AlikeServed(m.controller.bag, m.broker);
      FinishAnnounced(m);
    } else {
      SameOpens(w, m);
      FinishOpened(m);
    }
    ClearableFrom(w, m);
  }

  lemma SameEven(us: AppBag, told: AppBag)
    requires WellFormed(us) && told == us.(ca := told.ca)
    ensures WellFormed(told) && LeadSet(told) == LeadSet(us) && (OthersRotate(us) <==> OthersRotate(told))
    ensures forall i: nat :: Odd(told, i) <==> Odd(us, i)
  {
    hide Authorities;
  }

  lemma SameOpens(w: World, m: World)
    requires WellFormedWorld(w) && WellFormedWorld(m) && WellFormed(w.broker.bag) && WellFormed(w.controller.bag)
    requires m.broker == w.broker.(bag := w.broker.bag.(ca := m.broker.bag.ca))
    requires m.controller == w.controller.(bag := w.controller.bag.(ca := m.controller.bag.ca))
    requires Opens(w)
    ensures WellFormed(m.broker.bag) && WellFormed(m.controller.bag) && Opens(m)
  {
    hide Odd, CanTell, CanRefresh, LeadSet, OthersRotate;
    SameEven(w.broker.bag, m.broker.bag);
    SameEven(w.controller.bag, m.controller.bag);
    assert Helped(m) <==> Helped(w);
    if forall i: nat | i < |w.broker.locals| :: i < |w.broker.bag.units| && Serves(w, i) {
      forall i: nat | i < |m.broker.locals| ensures i < |m.broker.bag.units| && Serves(m, i) { assert Serves(w, i); }
    }
  }

  // ---- Which runs lead where ----

  /** Applications at rest are in such a state. */
  lemma RestReady(p: Plan, w: World)
    requires GoodPlan(p) && WellFormedWorld(w) && AtRest(p, w)
    ensures Base(w) && WellFormed(w.controller.bag) && Announced(w.controller.bag)
  {
    hide GoodPlan, CoherentWorld, WellFormedApp, Install, Safe, Sound;
    RestSafe(p, w);
    forall role: Role ensures WellFormedApp(w.Of(role)) && AppBase(w.Of(role)) && RestBag(p.Of(role), w.Of(role).bag)
      && forall i: nat | i < |w.Of(role).locals| :: i < |w.Of(role).bag.units| && !w.Of(role).bag.units[i].rotate
    {
      Sized(w, role);
      assert RestBag(p.Of(role), w.Of(role).bag) && RestBag(p.Of(role.Other()), w.Of(role.Other()).bag);
      forall i: nat | i < |w.Of(role).locals|
        ensures UnitBase(w.Of(role).locals[i], w.Of(role).bag.units[i]) && !w.Of(role).bag.units[i].rotate
      {
        var l, b, them := w.Of(role).locals[i], w.Of(role).bag.units[i], w.Of(role.Other()).bag;
        assert RestUnit(p.Of(role), l, b, them, w.clock);
        assert b.bundle != [];
        InstalledSome(b.bundle, them.ca, [], l.disk.modified);
      }
    }
    assert AppBase(w.Of(BrokerApp)) && AppBase(w.Of(ControllerApp));
    Sized(w, ControllerApp);
    assert !w.Of(ControllerApp).bag.units[w.Of(ControllerApp).bag.leader].rotate;
  }

  /** The controller leader does not rotate unannounced. */
  ghost predicate Announced(us: AppBag)
    requires WellFormed(us)
  {
    us.units[us.leader].rotate ==> us.rotating
  }

  /** The steps that keep it so: the controller leader does not lose its certificates relation, and
      leadership does not pass to a rotating controller before the rotation is announced. */
  ghost predicate Announcing(w: World, s: Step)
    requires WellFormedWorld(w) && Enabled(w, s)
  {
    s.role.ControllerApp? ==>
      && (s.BrokenStep? ==> s.me != w.controller.bag.leader)
      && (s.ElectStep? ==> w.controller.bag.units[s.me].rotate ==> w.controller.bag.rotating)
  }

  ghost predicate AnnouncingRun(w: World, steps: seq<Step>)
    requires WellFormedWorld(w) && Runs(w, steps)
    decreases |steps|
  {
    steps == [] || (var n := |steps| - 1; AnnouncingRun(w, steps[..n]) && Announcing(Run(w, steps[..n]), steps[n]))
  }

  lemma PassAnnounced(role: Role, l: Local, us: AppBag, them: AppBag, me: nat)
    requires WellFormed(us) && me < |us.units| && Announced(us)
    ensures Announced(PassBag(role, l, us, them, me))
  {
    hide PublishTrust, HeldBack;
    PublishKeeps(l, us, me, false);
  }

  lemma BagAnnounced(s: Step, l: Local, us: AppBag, them: AppBag)
    requires Fits(s, us) && Announced(us)
    requires s.BrokenStep? ==> s.me != us.leader
    requires s.ElectStep? ==> us.units[s.me].rotate ==> us.rotating
    ensures Announced(BagAfter(s, l, us, them))
  {
    hide PassBag, PublishTrust;
    PassAnnounced(s.role, l, us, them, s.me);
    PublishKeeps(l, us, s.me, true);
  }

  lemma {:induction false} RunAnnounced(w: World, steps: seq<Step>)
    requires WellFormedWorld(w) && Runs(w, steps) && AnnouncingRun(w, steps) && Announced(w.controller.bag)
    ensures Announced(Run(w, steps).controller.bag)
    decreases |steps|
  {
    if steps != [] {
      hide BagAfter, LocalAfter, Announced;
      var n := |steps| - 1;
      RunAnnounced(w, steps[..n]);
      var before, s := Run(w, steps[..n]), steps[n];
      StepHere(before, s);
      if s.role.ControllerApp? {
        BagAnnounced(s, before.controller.locals[s.me], before.controller.bag, before.broker.bag);
      }
    }
  }

  /** On such runs nothing but strange units keeps the flags up, whatever else is in flight. */
  lemma AnnouncedRunsFinish(w: World, steps: seq<Step>)
    requires WellFormedWorld(w) && Base(w) && Announced(w.controller.bag) && Runs(w, steps) && AnnouncingRun(w, steps)
    requires var b, c := Run(w, steps).broker, Run(w, steps).controller;
             && WellFormed(b.bag) && WellFormed(c.bag) && Sorted(b.bag, c) && Sorted(c.bag, b)
    ensures var b, c := Run(w, steps).broker, Run(w, steps).controller;
            Clearable(Run(w, steps)) <==>
              !SomeStrange(c.bag, b) && (SomeStrange(b.bag, c) ==> c.bag.rotating || OthersRotate(c.bag))
  {
    hide Base, Clearable, AnnouncingRun, Sorted, SomeStrange, OthersRotate, Run, Runs;
    RunBase(w, steps);
    RunAnnounced(w, steps);
    AnnouncedExactly(Run(w, steps));
  }

  /** No rotating unit of the first generation lags behind a leader of the second. */
  ghost predicate NoLaggard(g: Generation, us: AppBag)
    requires WellFormed(us)
  {
    forall i: nat | i < |us.units| && us.units[i].rotate && IsAfter(g, us.units[us.leader].bundle) ::
      IsAfter(g, us.units[i].bundle)
  }

  /** A unit that receives its new certificate before its leader is strange. */
  lemma EarlyFollowerStrange(p: Plan, w: World, role: Role, i: nat)
    requires GoodPlan(p) && WellFormedWorld(w) && Telling(p, w) && WellFormed(w.Of(role).bag)
    requires var us := w.Of(role).bag;
             && i < |us.units| && us.units[i].rotate && IsAfter(p.Of(role), us.units[i].bundle)
             && IsBefore(p.Of(role), us.units[us.leader].bundle)
    ensures Strange(w.Of(role).bag, i, w.Of(role.Other()))
  {
    hide GoodPlan, GoodGeneration, Apart, IsBefore, IsAfter, AppOk, Telling, Safe, WellFormedApp, Ignorant,
      Authorities, AppTells;
    var g, us, remote := p.Of(role), w.Of(role).bag, w.Of(role.Other());
    PlanParts(p, role);
    TellingAt(p, w, role);
    TellingAt(p, w, role.Other());
    SafeAt(p, w, role);
    assert role.Other().Other() == role;
    GenerationsDiffer(g, us.units[us.leader].bundle);
    GenerationsDiffer(g, us.ca);
    BagInOrder(p, w, role);
    AuthoritiesOf(g, us.units[i].bundle);
    var c := SomeNews(g);
    BeforeHasNone(g, us.units[us.leader].bundle, c);
    BeforeHasNone(g, us.ca, c);
    RemoteIgnorant(p, w, role, c);
    assert Unseen(c, us, remote);
  }

  lemma BagInOrder(p: Plan, w: World, role: Role)
    requires WellFormedWorld(w) && Safe(p, w)
    ensures var us := w.Of(role).bag;
            && WellFormed(us) && (IsBefore(p.Of(role), us.ca) || IsAfter(p.Of(role), us.ca))
            && (IsAfter(p.Of(role), us.ca) ==> IsAfter(p.Of(role), us.units[us.leader].bundle))
  {
    hide IsBefore, IsAfter, UnitOk, Sound, WellFormedApp;
    SafeAt(p, w, role);
  }

  lemma SomeNews(g: Generation) returns (c: Certificate)
    requires GoodGeneration(g)
    ensures c in News(g) && c in After(g) && c !in Before(g) && c.Authority?
  {
    c :| c in News(g);
  }

  lemma BeforeHasNone(g: Generation, bundle: seq<Certificate>, c: Certificate)
    requires GoodGeneration(g) && IsBefore(g, bundle) && c !in Before(g) && c.Authority?
    ensures c !in bundle
  {
    hide GoodGeneration;
    forall k: nat | k < |bundle| ensures bundle[k] != c { BeforeAt(g, bundle, k); }
  }

  /** As long as the offer is of the first generation, no remote unit knows the second. */
  lemma RemoteIgnorant(p: Plan, w: World, role: Role, c: Certificate)
    requires GoodPlan(p) && WellFormedWorld(w) && Telling(p, w) && !IsAfter(p.Of(role), w.Of(role).bag.ca)
    requires c in News(p.Of(role)) && c in After(p.Of(role))
    ensures Ignorant(w.Of(role.Other()), 0, c) && c !in w.Of(role.Other()).bag.trust
  {
    hide GoodGeneration, Apart, IsBefore, IsAfter, Telling, Safe, Stored, Coherent, AppTells, BagOk, WellFormedApp;
    var r, g, remote := p.Of(role), p.Of(role.Other()), w.Of(role.Other());
    TellingAt(p, w, role.Other());
    SafeAt(p, w, role.Other());
    assert role.Other().Other() == role;
    Sized(w, role.Other());
    ApartBoth(p, role);
    var l, b := remote.locals[0], remote.bag.units[0];
    assert UnitOk(g, r, l, b, false, w.clock);
    TellsAt(After(r), remote, 0);
    if c in l.disk.trust.Values { RemoteNewsMeansOffered(g, r, b.bundle, l.disk.trust, false, c); }
    if c in b.bundle { NotOwn(g, r, b.bundle, l.disk.trust, c); }
  }

  lemma ApartBoth(p: Plan, role: Role)
    requires GoodPlan(p)
    ensures GoodGeneration(p.Of(role)) && GoodGeneration(p.Of(role.Other()))
    ensures Apart(p.Of(role), p.Of(role.Other())) && Apart(p.Of(role.Other()), p.Of(role))
  {
    hide GoodGeneration, Apart;
  }

  lemma TellsAt(cs: set<Certificate>, app: App, i: nat)
    requires WellFormedApp(app) && AppTells(cs, app) && i < |app.locals|
    ensures i < |app.bag.units| && UnitTells(cs, app.locals[i], app.bag.units[i], app.bag.trust)
  {
    hide UnitTells;
  }

  lemma NotOwn(g: Generation, r: Generation, bundle: seq<Certificate>, t: Trust, c: Certificate)
    requires GoodGeneration(g) && GoodGeneration(r) && Apart(g, r) && Stored(g, r, bundle, t, false)
    requires c in News(r)
    ensures c !in bundle
  {
    forall i: nat | i < |bundle| ensures bundle[i] != c { OwnNotRemote(g, r, bundle, i); }
  }

  /** During an allowed run, rotating units are like their leader or strange, unless they lag behind it. */
  lemma PlanMatched(p: Plan, w: World)
    requires GoodPlan(p) && WellFormedWorld(w) && Telling(p, w)
    requires WellFormed(w.broker.bag) && NoLaggard(p.broker, w.broker.bag)
    requires WellFormed(w.controller.bag) && NoLaggard(p.controller, w.controller.bag)
    ensures MatchedWorld(w)
  {
    hide GoodPlan, IsBefore, IsAfter, Telling, Strange, NoLaggard, Odd, WellFormedApp;
    forall role: Role ensures WellFormed(w.Of(role).bag) && Matched(w.Of(role).bag, w.Of(role.Other())) {
      assert NoLaggard(p.Of(role), w.Of(role).bag) by { if role.BrokerApp? {} else {} }
      forall i: nat | Odd(w.Of(role).bag, i) ensures Strange(w.Of(role).bag, i, w.Of(role.Other())) {
        OddIsEarly(p, w, role, i);
        EarlyFollowerStrange(p, w, role, i);
      }
    }
    assert w.Of(BrokerApp) == w.broker && w.Of(ControllerApp) == w.controller;
    assert Matched(w.Of(BrokerApp).bag, w.Of(BrokerApp.Other())) &&
      Matched(w.Of(ControllerApp).bag, w.Of(ControllerApp.Other()));
  }

  lemma OddIsEarly(p: Plan, w: World, role: Role, i: nat)
    requires GoodPlan(p) && WellFormedWorld(w) && Telling(p, w)
    requires WellFormed(w.Of(role).bag) && NoLaggard(p.Of(role), w.Of(role).bag) && Odd(w.Of(role).bag, i)
    ensures var us := w.Of(role).bag;
            && i < |us.units| && us.units[i].rotate && IsAfter(p.Of(role), us.units[i].bundle)
            && IsBefore(p.Of(role), us.units[us.leader].bundle)
  {
    hide GoodPlan, GoodGeneration, IsBefore, IsAfter, Telling, Safe, Authorities, WellFormedApp;
    var g, us := p.Of(role), w.Of(role).bag;
    PlanParts(p, role);
    TellingAt(p, w, role);
    BundleKnown(p, w, role, i);
    BundleKnown(p, w, role, us.leader);
    AuthoritiesOf(g, us.units[i].bundle);
    AuthoritiesOf(g, us.units[us.leader].bundle);
  }

  lemma BundleKnown(p: Plan, w: World, role: Role, i: nat)
    requires WellFormedWorld(w) && Safe(p, w) && i < |w.Of(role).bag.units|
    ensures IsBefore(p.Of(role), w.Of(role).bag.units[i].bundle) || IsAfter(p.Of(role), w.Of(role).bag.units[i].bundle)
  {
    hide IsBefore, IsAfter, Safe, WellFormedApp, Coherent, BagOk;
    SafeAt(p, w, role);
    Sized(w, role);
  }

  /** In every allowed run from rest, both applications rotating at once or not: exactly when the hooks can
      clear every flag of the state reached. */
  lemma RunsClearableExactly(p: Plan, w: World, steps: seq<Step>)
    requires GoodPlan(p) && WellFormedWorld(w) && AtRest(p, w) && Runs(w, steps) && AllowedRun(p, w, steps)
    requires var end := Run(w, steps);
             && WellFormed(end.broker.bag) && NoLaggard(p.broker, end.broker.bag)
             && WellFormed(end.controller.bag) && NoLaggard(p.controller, end.controller.bag)
    ensures Clearable(Run(w, steps)) <==> Way(Run(w, steps))
  {
    hide GoodPlan, AtRest, Base, Telling, NoLaggard, Clearable, Way, MatchedWorld, AllowedRun, Run, Runs, WellFormedApp;
    RestTelling(p, w);
    RestReady(p, w);
    RunTelling(p, w, steps);
    RunBase(w, steps);
    PlanMatched(p, Run(w, steps));
    ClearableExactly(Run(w, steps));
  }

  /** So a controller that receives its new certificate before its leader keeps the rotation from finishing
      until something happens at the leader. */
  lemma EarlyControllerWaits(p: Plan, w: World, steps: seq<Step>, i: nat)
    requires GoodPlan(p) && WellFormedWorld(w) && AtRest(p, w) && Runs(w, steps) && AllowedRun(p, w, steps)
    requires var us := Run(w, steps).controller.bag;
             && WellFormed(us) && i < |us.units| && us.units[i].rotate && IsAfter(p.controller, us.units[i].bundle)
             && IsBefore(p.controller, us.units[us.leader].bundle)
    ensures !Clearable(Run(w, steps))
  {
    hide GoodPlan, AtRest, Base, Telling, Clearable, AllowedRun, Run, Runs, WellFormedApp, Strange, IsBefore, IsAfter,
      CoherentWorld;
    RestTelling(p, w);
    RestReady(p, w);
    RunTelling(p, w, steps);
    RunBase(w, steps);
    var end := Run(w, steps);
    BaseCoherent(end);
    assert end.Of(ControllerApp) == end.controller && end.Of(ControllerApp.Other()) == end.broker;
    EarlyFollowerStrange(p, end, ControllerApp, i);
    Sized(end, BrokerApp);
    assert end.Of(BrokerApp) == end.broker;
    StrangeControllerWaits(end);
  }

  /** What a lost certificates relation leaves at a leader. */
  lemma BrokenSticks(w: World, s: Step, cs: set<Certificate>)
    requires WellFormedWorld(w) && CoherentWorld(w) && Enabled(w, s) && s.BrokenStep?
    requires !w.Of(s.role).locals[s.me].pending && s.me == w.Of(s.role).bag.leader
    ensures var r, us := Apply(w, s).Of(s.role), w.Of(s.role).bag;
            && WellFormed(r.bag) && r.bag.leader == us.leader && s.me < |r.locals| && r.bag.units[s.me].rotate
            && LeadSet(r.bag) == Authorities(s.bundle) && !CanRefresh(r.locals[s.me], r.bag.units[s.me], cs)
            && r.bag.rotating == us.rotating && r.bag.trust == us.trust
  {
    hide Apply, Install, CoherentWorld, Authorities, FilesHold;
    StepHere(w, s);
    UnitFacts(w, s.role, s.me);
    InstallTrusts(s.bundle, w.Of(s.role.Other()).bag.ca, w.Of(s.role).bag.units[s.me].bundle, w.clock + 1);
  }

  /** A state without a way is within reach.  When both leaders lose their certificates relation while no
      rotation is announced, their new certificates unknown to each other, no sequence of hooks clears
      the flags: that event does not announce the rotation. */
  lemma BothRelationsBrokenDeadlocks(w: World, b: Step, c: Step)
    requires WellFormedWorld(w) && CoherentWorld(w) && !w.controller.bag.rotating
    requires b.BrokenStep? && b.role.BrokerApp? && b.me == w.broker.bag.leader && GoodBundle(b.bundle)
    requires c.BrokenStep? && c.role.ControllerApp? && c.me == w.controller.bag.leader && GoodBundle(c.bundle)
    requires b.me < |w.broker.locals| && !w.broker.locals[b.me].pending
    requires c.me < |w.controller.locals| && !w.controller.locals[c.me].pending
    requires !(Authorities(b.bundle) <= w.controller.bag.trust) && !(Authorities(c.bundle) <= w.broker.bag.trust)
    ensures Enabled(w, b) && Enabled(Apply(w, b), c)
    ensures !Clearable(Apply(Apply(w, b), c))
  {
    hide CoherentWorld, BagAfter, LocalAfter, Authorities, GoodBundle, Clearable, CanTell, CanRefresh, LeadSet;
    Sized(w, BrokerApp);
    Sized(w, ControllerApp);
    var m := Apply(w, b);
    BrokenSticks(w, b, Authorities(c.bundle));
    StepCoherent(w, b);
    assert Enabled(m, c);
    BrokenSticks(m, c, Authorities(b.bundle));
    StepCoherent(m, c);
    var r := Apply(m, c);
    LeaderAlike(r.broker.bag);
    LeaderAlike(r.controller.bag);
    JamAlike(r, b.me, c.me);
    JamWaits(r, {b.me}, {c.me, c.me});
  }
}
