/** The charm's TLS event handlers, as they change databags and stores step by step, each proved to be
    the step of the rotation protocol that it stands for. */
module RotationHandlers {
  import opened Truststore
  import opened TruststoreManager
  import opened Rotation
  import opened RotationSafety

  /** The relation data of one application. */
  class PeerData {
    var bag: AppBag

    constructor (bag: AppBag)
      ensures this.bag == bag
    {
      this.bag := bag;
    }
  }

  /** One unit of the charm with its stores, its workload and the relation data it sees. */
  class Charm {
    const role: Role
    const me: nat
    const tls: TlsManager
    const ours: PeerData
    const theirs: PeerData
    var loadedTrust: Trust
    var loadedKey: seq<Certificate>
    var lastRestart: nat
    var pending: bool

    ghost predicate Valid() reads ours {
      ours != theirs && WellFormed(ours.bag) && me < |ours.bag.units|
    }

    ghost function State(): Local reads this, tls {
      Local(tls.Stores(), loadedTrust, loadedKey, lastRestart, pending)
    }

    constructor (role: Role, me: nat, tls: TlsManager, ours: PeerData, theirs: PeerData)
      requires ours != theirs && WellFormed(ours.bag) && me < |ours.bag.units|
      ensures Valid() && this.tls == tls && this.ours == ours && this.theirs == theirs && this.role == role &&
              this.me == me
      ensures State() == Local(tls.Stores(), map[], [], 0, false)
    {
      this.role, this.me, this.tls, this.ours, this.theirs := role, me, tls, ours, theirs;
      loadedTrust, loadedKey, lastRestart, pending := map[], [], 0, false;
    }

    /** The intersection, accumulated over the units starting from the own set. */
    method TrustedByOurApp() returns (trusted: set<Certificate>)
      requires Valid()
      ensures trusted == TrustedByAll(ours.bag.units)
    {
      var units := ours.bag.units;
      trusted := units[me].published;
      for i := 0 to |units|
        invariant forall c :: c in trusted <==>
                  c in units[me].published && forall j: nat | j < i :: c in units[j].published
      {
        trusted := trusted * units[i].published;
      }
      forall c ensures c in trusted <==> c in TrustedByAll(units) { TrustedByAllMeans(units, c); }
    }

    method PeerClusterAppTrustsNewBundle() returns (trusts: bool)
      requires Valid()
      ensures trusts == GateOpen(ours.bag.units[me], theirs.bag)
    {
      var bundle := ours.bag.units[me].bundle;
      for i := 0 to |bundle|
        invariant forall j: nat | j < i :: bundle[j].Leaf? || bundle[j] in theirs.bag.trust
      {
        if !bundle[i].Leaf? && bundle[i] !in theirs.bag.trust {
          assert bundle[i] in Authorities(bundle);
          return false;
        }
      }
      return true;
    }

    method BothAppsTrustNewBundle() returns (trusts: bool)
      requires Valid()
      ensures trusts == BothTrust(ours.bag, theirs.bag, me)
    {
      var common := TrustedByOurApp();
      common := common * theirs.bag.trust;
      var bundles := ours.bag.units[me].bundle + theirs.bag.ca;
      assert Authorities(bundles) == Authorities(ours.bag.units[me].bundle) + Authorities(theirs.bag.ca);
      for i := 0 to |bundles|
        invariant forall j: nat | j < i :: bundles[j].Leaf? || bundles[j] in common
      {
        if !bundles[i].Leaf? && bundles[i] !in common {
          assert bundles[i] in Authorities(bundles);
          return false;
        }
      }
      return true;
    }

    /** The flags of all units of this application. */
    method AnyUnitRotating() returns (r: bool)
      requires Valid()
      ensures r == AnyRotating(ours.bag.units)
    {
      var units := ours.bag.units;
      for i := 0 to |units|
        invariant forall j: nat | j < i :: !units[j].rotate
      {
        if units[i].rotate { return true; }
      }
      return false;
    }

    method SetUnit(b: UnitBag)
      requires Valid()
      modifies ours
      ensures ours.bag == WithUnit(old(ours.bag), me, b)
    {
      ours.bag := ours.bag.(units := ours.bag.units[me := b]);
    }

    method UpdatePeerTruststoreState(force: bool)
      requires Valid()
      modifies ours
      ensures Valid() && ours.bag == PublishTrust(State(), old(ours.bag), me, force)
    {
      if tls.trust == map[] { return; }
      if !force && lastRestart <= tls.modified { return; }
      SetUnit(ours.bag.units[me].(published := tls.trust.Values));
      if me == ours.bag.leader {
        var trusted := TrustedByOurApp();
        ours.bag := ours.bag.(trust := trusted);
      }
    }

    /** The gate, and the broker side's way around it. */
    method HeldAtGate() returns (held: bool)
      requires Valid()
      ensures held == HeldBack(role, ours.bag, theirs.bag, me)
    {
      if !ours.bag.units[me].rotate { return false; }
      var trusts := PeerClusterAppTrustsNewBundle();
      if trusts { return false; }
      var rotating := AnyUnitRotating();
      return !(role.BrokerApp? && theirs.bag.rotating && rotating);
    }

    /** The end of a pass: the broker leader renews its offer, and the rotation flags come down. */
    method CompletePass()
      requires Valid()
      modifies ours
      ensures Valid() && ours.bag == PassDone(role, old(ours.bag), me)
    {
      if role.BrokerApp? && me == ours.bag.leader {
        ours.bag := ours.bag.(ca := ours.bag.units[me].bundle);
      }
      SetUnit(ours.bag.units[me].(rotate := false));
      if me == ours.bag.leader {
        var rotating := AnyUnitRotating();
        ours.bag := ours.bag.(rotating := rotating);
      }
    }

    method ConfigChanged(properties: bool, now: nat)
      requires Valid()
      modifies this, tls, ours
      ensures Valid()
      ensures ours.bag == BagAfter(ConfigStep(role, me, properties), old(State()), old(ours.bag), theirs.bag)
      ensures State() == LocalAfter(ConfigStep(role, me, properties), old(State()), old(ours.bag), theirs.bag, now)
    {
      hide PeerPass, PublishTrust, HeldBack, PassDone;
      if theirs.bag.ca == [] { return; }
      PublishKeeps(State(), ours.bag, me, false);
      UpdatePeerTruststoreState(false);
      var before := tls.trust.Values;
      tls.UpdatePeerClusterTrust(theirs.bag.ca, now);
      var updated := tls.trust.Values != before;
      var held := HeldAtGate();
      if held { return; }
      if properties || ours.bag.units[me].rotate || updated { pending := true; }
      CompletePass();
    }

    method CertificateAvailable(bundle: seq<Certificate>, now: nat)
      requires Valid() && |bundle| >= 2 && |ours.bag.units[me].bundle| >= 2
      modifies tls, ours
      ensures Valid()
      ensures ours.bag == BagAfter(CertificateStep(role, me, bundle), old(State()), old(ours.bag), theirs.bag)
      ensures State() == LocalAfter(CertificateStep(role, me, bundle), old(State()), old(ours.bag), theirs.bag, now)
    {
      hide Install;
      var was := ours.bag.units[me];
      var certificateChanged := bundle[0] != was.bundle[0];
      var caChanged := bundle[1] != was.bundle[1];
      SetUnit(was.(bundle := bundle));
      var kept := if caChanged then was.bundle else [];
      tls.Reinstall(bundle, theirs.bag.ca, kept, now);
      if certificateChanged || caChanged {
        SetUnit(ours.bag.units[me].(rotate := true));
      }
      if me == ours.bag.leader {
        ours.bag := ours.bag.(ca := bundle);
        if ours.bag.units[me].rotate {
          ours.bag := ours.bag.(rotating := true);
        }
      }
    }

    /** The relation to the certificates provider breaks; `bundle` is the self-signed one. */
    method TlsRelationBroken(bundle: seq<Certificate>, now: nat)
      requires Valid()
      modifies tls, ours
      ensures Valid()
      ensures ours.bag == BagAfter(BrokenStep(role, me, bundle), old(State()), old(ours.bag), theirs.bag)
      ensures State() == LocalAfter(BrokenStep(role, me, bundle), old(State()), old(ours.bag), theirs.bag, now)
    {
      hide Install;
      var was := ours.bag.units[me];
      SetUnit(was.(bundle := bundle, rotate := true));
      if me == ours.bag.leader {
        ours.bag := ours.bag.(ca := bundle);
      }
      tls.Reinstall(bundle, theirs.bag.ca, was.bundle, now);
    }

    /** The rolling restart reaches this unit. */
    method RestartBroker(healthy: bool, now: nat)
      requires Valid()
      modifies this, ours
      ensures Valid()
      ensures ours.bag == BagAfter(RestartStep(role, me, healthy), old(State()), old(ours.bag), theirs.bag)
      ensures State() == LocalAfter(RestartStep(role, me, healthy), old(State()), old(ours.bag), theirs.bag, now)
    {
      loadedTrust, loadedKey, lastRestart := tls.trust, tls.keystore, now;
      if !healthy { return; }
      pending := false;
      UpdatePeerTruststoreState(true);
    }

    method UpdateStatus(properties: bool, now: nat)
      requires Valid()
      modifies this, tls, ours
      ensures Valid()
      ensures ours.bag == BagAfter(StatusStep(role, me, properties), old(State()), old(ours.bag), theirs.bag)
      ensures State() == LocalAfter(StatusStep(role, me, properties), old(State()), old(ours.bag), theirs.bag, now)
    {
      hide PassBag, PassLocal, Rebuild, HasTemporary, BothTrust;
      PassKeepsBundles(role, State(), ours.bag, theirs.bag, me);
      ConfigChanged(properties, now);
      if theirs.bag.ca != [] {
        var temporary := tls.HasTemporaryAliases();
        if temporary {
          var trusts := BothAppsTrustNewBundle();
          if trusts {
            tls.RebuildTruststore(ours.bag.units[me].bundle, theirs.bag.ca, now);
            pending := true;
          }
        }
      }
    }
  }
}
