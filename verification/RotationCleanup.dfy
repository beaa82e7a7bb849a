/** Clean-up safety: with the two applications' CAs apart and one rotation in flight per
    application, rebuilding a truststore never drops a CA under which some unit still presents. */
module RotationCleanup {
  import opened Truststore
  import opened Rotation
  import opened RotationSafety

  /** The CA certificates of an application's bundles before and after its rotation, in bundle order. */
  datatype Generation = Generation(before: seq<Certificate>, after: seq<Certificate>)

  datatype Plan = Plan(broker: Generation, controller: Generation)
  {
    function Of(role: Role): Generation { if role.BrokerApp? then broker else controller }
  }

  predicate IsBefore(g: Generation, bundle: seq<Certificate>) {
    bundle != [] && bundle[0].Leaf? && bundle[1..] == g.before
  }

  predicate IsAfter(g: Generation, bundle: seq<Certificate>) {
    bundle != [] && bundle[0].Leaf? && bundle[1..] == g.after
  }

  /** What the rotation brings that was not there before. */
  function News(g: Generation): set<Certificate> {
    set c | c in g.after && c !in g.before
  }

  ghost predicate GoodGeneration(g: Generation) {
    && g.before != [] && g.after != [] && News(g) != {}
    && (forall c | c in g.before || c in g.after :: c.Authority?)
  }

  /** The two applications' CAs are disjoint. */
  ghost predicate GoodPlan(p: Plan) {
    && GoodGeneration(p.broker) && GoodGeneration(p.controller)
    && Apart(p.broker, p.controller) && Apart(p.controller, p.broker)
  }

  ghost predicate Apart(g: Generation, r: Generation) {
    forall c | c in g.before || c in g.after :: c !in r.before && c !in r.after
  }

  /** One rotation in flight: bundles move from the first generation to the second and never back
      (a unit's certificate may be renewed within a generation). */
  ghost predicate Moving(p: Plan, w: World, s: Step)
    requires WellFormedWorld(w) && Enabled(w, s)
  {
    var g, b := p.Of(s.role), w.Of(s.role).bag.units[s.me].bundle;
    match s
    case CertificateStep(_, _, bundle) => IsAfter(g, bundle) || (IsBefore(g, bundle) && IsBefore(g, b))
    case BrokenStep(_, _, bundle) => IsAfter(g, bundle) && IsBefore(g, b)
    case _ => true
  }

  /** And leadership does not go to a unit that lags behind the bundle its application has offered. */
  ghost predicate Allowed(p: Plan, w: World, s: Step)
    requires WellFormedWorld(w) && Enabled(w, s)
  {
    var g, us := p.Of(s.role), w.Of(s.role).bag;
    Moving(p, w, s) && (s.ElectStep? ==> IsAfter(g, us.ca) ==> IsAfter(g, us.units[s.me].bundle))
  }

  ghost predicate MovingRun(p: Plan, w: World, steps: seq<Step>)
    requires WellFormedWorld(w) && Runs(w, steps)
    decreases |steps|
  {
    steps == [] || (var n := |steps| - 1;
                    MovingRun(p, w, steps[..n]) && Moving(p, Run(w, steps[..n]), steps[n]))
  }

  ghost predicate AllowedRun(p: Plan, w: World, steps: seq<Step>)
    requires WellFormedWorld(w) && Runs(w, steps)
    decreases |steps|
  {
    steps == [] || (var n := |steps| - 1; AllowedRun(p, w, steps[..n]) && Allowed(p, Run(w, steps[..n]), steps[n]))
  }

  // ---- The shape of a store ----

  /** What may stand under a `cluster-tls` or `new-cluster-tls` alias; `ra` says that the remote side has
      offered its second generation at some time. */
  predicate PeerEntry(r: Generation, i: nat, c: Certificate, ra: bool) {
    if i == 0 then c.Leaf?
    else (i - 1 < |r.before| && c == r.before[i - 1]) || (ra && i - 1 < |r.after| && c == r.after[i - 1])
  }

  ghost predicate Stored(g: Generation, r: Generation, bundle: seq<Certificate>, t: Trust, ra: bool) {
    && (IsBefore(g, bundle) || IsAfter(g, bundle))
    && OwnFiled(t, bundle)
    && (forall i: nat | OldBundle(i) in t ::
         IsAfter(g, bundle) && (t[OldBundle(i)].Leaf? || t[OldBundle(i)] in g.before))
    && (forall i: nat | ClusterTls(i) in t :: PeerEntry(r, i, t[ClusterTls(i)], ra))
    && (forall i: nat | NewClusterTls(i) in t :: PeerEntry(r, i, t[NewClusterTls(i)], ra))
  }

  /** The remote application's offer. */
  ghost predicate Offer(r: Generation, ca: seq<Certificate>, ra: bool) {
    (IsBefore(r, ca) || IsAfter(r, ca)) && (IsAfter(r, ca) ==> ra)
  }

  lemma GenerationsDiffer(g: Generation, bundle: seq<Certificate>)
    requires GoodGeneration(g)
    ensures !(IsBefore(g, bundle) && IsAfter(g, bundle))
  {
    var c :| c in News(g);
  }

  lemma StoredLater(g: Generation, r: Generation, bundle: seq<Certificate>, t: Trust, ra: bool)
    requires Stored(g, r, bundle, t, ra)
    ensures Stored(g, r, bundle, t, true)
  {
  }

  /** The offer at an index above the leaf's is a CA certificate of the offered generation. */
  lemma OfferAt(r: Generation, ca: seq<Certificate>, ra: bool, i: nat)
    requires GoodGeneration(r) && Offer(r, ca, ra) && i < |ca|
    ensures PeerEntry(r, i, ca[i], ra)
  {
    if i > 0 { assert ca[1..][i - 1] == ca[i]; }
  }

  lemma StoredBundle(g: Generation, r: Generation, bundle: seq<Certificate>, t: Trust, ra: bool)
    requires Stored(g, r, bundle, t, ra)
    ensures IsBefore(g, bundle) || IsAfter(g, bundle)
  {
  }

  /** A pass files the remote offer where the store's shape allows it. */
  lemma PassStored(
      g: Generation, r: Generation, bundle: seq<Certificate>, d: Disk, ca: seq<Certificate>, ra: bool, now: nat)
    requires GoodGeneration(r) && Stored(g, r, bundle, d.trust, ra) && Offer(r, ca, ra)
    ensures Stored(g, r, bundle, PeerPass(d, ca, now).trust, ra)
  {
    hide PeerPass, GoodGeneration, Offer, IsBefore, IsAfter;
    var t, after := d.trust, PeerPass(d, ca, now).trust;
    forall a: Alias | a in t && !a.NewClusterTls? ensures a in after && after[a] == t[a] { PassKeeps(d, ca, now, a); }
    forall a: Alias | a in after && (a.Bundle? || a.OldBundle?)
      ensures a in t && after[a] == t[a] { PassOrigin(d, ca, now, a); }
    forall i: nat | ClusterTls(i) in after ensures PeerEntry(r, i, after[ClusterTls(i)], ra) {
      PassOrigin(d, ca, now, ClusterTls(i));
      if i < |ca| { OfferAt(r, ca, ra, i); }
    }
    forall i: nat | NewClusterTls(i) in after ensures PeerEntry(r, i, after[NewClusterTls(i)], ra) {
      PassOrigin(d, ca, now, NewClusterTls(i));
      if i < |ca| { OfferAt(r, ca, ra, i); }
    }
  }

  /** A pass loses no CA certificate: what it overwrites under a `new-` alias stands under the plain one. */
  lemma PassLosesNoAuthority(
      g: Generation, r: Generation, bundle: seq<Certificate>, d: Disk, ca: seq<Certificate>, ra: bool, now: nat)
    requires GoodGeneration(r) && Stored(g, r, bundle, d.trust, ra) && Offer(r, ca, ra)
    ensures forall c | c in d.trust.Values && c.Authority? :: c in PeerPass(d, ca, now).trust.Values
  {
    hide PeerPass, GoodGeneration, Offer, IsBefore, IsAfter, OwnFiled;
    var t, after := d.trust, PeerPass(d, ca, now).trust;
    forall c | c in t.Values && c.Authority? ensures c in after.Values {
      var a :| a in t && t[a] == c;
      PassEntry(d, ca, now, a);
      if after[a] != c {
        OfferAt(r, ca, ra, a.i);
        PassKeeps(d, ca, now, ClusterTls(a.i));
        assert after[ClusterTls(a.i)] == c;
      }
    }
  }

  /** A pass overwrites an entry only with a certificate that is nowhere in the store. */
  lemma PassEntry(d: Disk, ca: seq<Certificate>, now: nat, a: Alias)
    requires a in d.trust
    ensures var after := PeerPass(d, ca, now).trust;
            && a in after
            && (|| after[a] == d.trust[a]
                || (a.NewClusterTls? && a.i < |ca| && ca[a.i] !in d.trust.Values && ClusterTls(a.i) in d.trust))
  {
  }

  /** A store that was written in one go has the right shape. */
  lemma FreshStored(
      g: Generation, r: Generation, bundle: seq<Certificate>, t: Trust, ca: seq<Certificate>, kept: seq<Certificate>,
      ra: bool)
    requires GoodGeneration(r) && Offer(r, ca, ra)
    requires IsBefore(g, bundle) || IsAfter(g, bundle)
    requires kept == [] || (IsBefore(g, kept) && IsAfter(g, bundle))
    requires OwnFiled(t, bundle) && PeersFiled(t, ca)
    requires forall i: nat :: NewClusterTls(i) !in t
    requires forall i: nat | OldBundle(i) in t :: i < |kept| && t[OldBundle(i)] == kept[i]
    ensures Stored(g, r, bundle, t, ra)
  {
    hide GoodGeneration, IsBefore, IsAfter, Offer, OwnFiled;
    forall i: nat | OldBundle(i) in t
      ensures IsAfter(g, bundle) && (t[OldBundle(i)].Leaf? || t[OldBundle(i)] in g.before) {
      BeforeAt(g, kept, i);
    }
    forall i: nat | ClusterTls(i) in t ensures PeerEntry(r, i, t[ClusterTls(i)], ra) {
      OfferAt(r, ca, ra, i);
    }
  }

  lemma BeforeAt(g: Generation, bundle: seq<Certificate>, i: nat)
    requires IsBefore(g, bundle) && i < |bundle|
    ensures bundle[i].Leaf? || bundle[i] in g.before
  {
    if i > 0 { assert bundle[1..][i - 1] == bundle[i]; }
  }

  lemma InstalledStored(
      g: Generation, r: Generation, bundle: seq<Certificate>, ca: seq<Certificate>, kept: seq<Certificate>, ra: bool,
      now: nat)
    requires GoodGeneration(r) && Offer(r, ca, ra)
    requires IsBefore(g, bundle) || IsAfter(g, bundle)
    requires kept == [] || (IsBefore(g, kept) && IsAfter(g, bundle))
    ensures Stored(g, r, bundle, Install(bundle, ca, kept, now).trust, ra)
  {
    assert bundle != [];
    hide *;
    InstallExact(bundle, ca, kept, now);
    FreshStored(g, r, bundle, Install(bundle, ca, kept, now).trust, ca, kept, ra);
  }

  lemma RebuiltStored(
      g: Generation, r: Generation, bundle: seq<Certificate>, d: Disk, ca: seq<Certificate>, ra: bool, now: nat)
    requires GoodGeneration(r) && Offer(r, ca, ra) && FilesHold(d.files, bundle)
    requires IsBefore(g, bundle) || IsAfter(g, bundle)
    ensures Stored(g, r, bundle, Rebuild(d, bundle, ca, now).trust, ra)
  {
    RebuildExact(d, bundle, ca, now);
    var t := Rebuild(d, bundle, ca, now).trust;
    assert forall i: nat :: !(OldBundle(i) in t) && !(NewClusterTls(i) in t) by {
      hide Rebuild;
      forall i: nat ensures !(OldBundle(i) in t) && !(NewClusterTls(i) in t) {
        assert OldBundle(i).Temporary() && NewClusterTls(i).Temporary();
      }
    }
    hide *;
    FreshStored(g, r, bundle, t, ca, [], ra);
  }

  /** An application's new CA gets into one of its own stores only with the unit's own new bundle. */
  lemma NewsMeansAfter(g: Generation, r: Generation, bundle: seq<Certificate>, t: Trust, ra: bool, c: Certificate)
    requires GoodGeneration(g) && Apart(g, r) && Stored(g, r, bundle, t, ra)
    requires c in News(g) && c in t.Values
    ensures IsAfter(g, bundle)
  {
    var a :| a in t && t[a] == c;
    match a
    case Bundle(i) => assert c == bundle[i]; if i > 0 { assert bundle[1..][i - 1] == c; }
    case OldBundle(i) =>
    case ClusterTls(i) =>
    case NewClusterTls(i) =>
  }

  lemma AfterMeansNews(g: Generation, r: Generation, bundle: seq<Certificate>, t: Trust, ra: bool)
    requires Stored(g, r, bundle, t, ra) && IsAfter(g, bundle)
    ensures forall c | c in g.after :: c in t.Values
  {
    forall c | c in g.after ensures c in t.Values {
      var i: nat :| i < |g.after| && g.after[i] == c;
      assert t[Bundle(i + 1)] == bundle[1..][i];
    }
  }

  /** A remote new CA is in a store only once the remote side has offered it. */
  lemma RemoteNewsMeansOffered(
      g: Generation, r: Generation, bundle: seq<Certificate>, t: Trust, ra: bool, c: Certificate)
    requires GoodGeneration(g) && GoodGeneration(r) && Apart(g, r) && Apart(r, g) && Stored(g, r, bundle, t, ra)
    requires c in News(r) && c in t.Values
    ensures ra
  {
    var a :| a in t && t[a] == c;
    match a
    case Bundle(i) => OwnNotRemote(g, r, bundle, i);
    case OldBundle(i) =>
    case ClusterTls(i) =>
    case NewClusterTls(i) =>
  }

  lemma OwnNotRemote(g: Generation, r: Generation, bundle: seq<Certificate>, i: nat)
    requires Apart(g, r) && (IsBefore(g, bundle) || IsAfter(g, bundle)) && i < |bundle|
    ensures bundle[i].Leaf? || (bundle[i] !in r.before && bundle[i] !in r.after)
  {
    if i > 0 { assert bundle[1..][i - 1] == bundle[i]; }
  }

  // ---- The invariant ----

  ghost predicate UnitOk(g: Generation, r: Generation, l: Local, b: UnitBag, ra: bool, clock: nat) {
    && Coherent(l, b, clock)
    && Stored(g, r, b.bundle, l.disk.trust, ra)
    && Stored(g, r, l.loadedKey, l.loadedTrust, ra)
    && (IsAfter(g, l.loadedKey) ==> IsAfter(g, b.bundle))
    && (b.published !! News(g) || IsAfter(g, l.loadedKey))
  }

  ghost predicate BagOk(g: Generation, us: AppBag) {
    && WellFormed(us)
    && (IsBefore(g, us.ca) || IsAfter(g, us.ca))
    && (forall i: nat | i < |us.units| :: us.trust * News(g) <= us.units[i].published)
  }

  ghost predicate AppOk(g: Generation, r: Generation, app: App, them: AppBag, ra: bool, clock: nat)
    requires WellFormedApp(app)
  {
    && BagOk(g, app.bag) && (IsAfter(r, them.ca) ==> ra)
    && forall i: nat | i < |app.locals| :: UnitOk(g, r, app.locals[i], app.bag.units[i], ra, clock)
  }

  /** Which applications have offered their second generation at some time. */
  datatype Offers = Offers(broker: bool, controller: bool)
  {
    function Of(role: Role): bool { if role.BrokerApp? then broker else controller }

    function With(role: Role, offered: bool): Offers {
      if role.BrokerApp? then this.(broker := offered) else this.(controller := offered)
    }
  }

  /** The invariant of all runs within the plan, whoever leads. */
  ghost predicate Sound(p: Plan, w: World, o: Offers)
    requires WellFormedWorld(w)
  {
    && AppOk(p.broker, p.controller, w.broker, w.controller.bag, o.controller, w.clock)
    && AppOk(p.controller, p.broker, w.controller, w.broker.bag, o.broker, w.clock)
  }

  /** The offers of a step later: the old ones, and what is on offer now. */
  ghost function OffersAfter(p: Plan, r: World, o: Offers, role: Role): Offers {
    o.With(role, o.Of(role) || IsAfter(p.Of(role), r.Of(role).bag.ca))
  }

  ghost function OffersNow(p: Plan, w: World): Offers {
    Offers(IsAfter(p.broker, w.broker.bag.ca), IsAfter(p.controller, w.controller.bag.ca))
  }

  /** The leader does not lag behind the offer. */
  ghost predicate Steady(g: Generation, us: AppBag) {
    WellFormed(us) && (IsAfter(g, us.ca) ==> IsAfter(g, us.units[us.leader].bundle))
  }

  /** The invariant of runs in which leadership is steady: what has been offered is still on offer. */
  ghost predicate Safe(p: Plan, w: World)
    requires WellFormedWorld(w)
  {
    Sound(p, w, OffersNow(p, w)) && Steady(p.broker, w.broker.bag) && Steady(p.controller, w.controller.bag)
  }

  lemma PublishOk(g: Generation, r: Generation, l: Local, us: AppBag, me: nat, force: bool, ra: bool, clock: nat)
    requires GoodGeneration(g) && Apart(g, r)
    requires BagOk(g, us) && me < |us.units| && UnitOk(g, r, l, us.units[me], ra, clock)
    requires force ==> l.loadedTrust == l.disk.trust && l.loadedKey == l.disk.keystore
    ensures BagOk(g, PublishTrust(l, us, me, force))
    ensures UnitOk(g, r, l, PublishTrust(l, us, me, force).units[me], ra, clock)
  {
    var told := PublishTrust(l, us, me, force);
    PublishKeeps(l, us, me, force);
    if told != us {
      var said := l.disk.trust.Values;
      assert told.units[me].published == said;
      if c :| c in said && c in News(g) { NewsMeansAfter(g, r, us.units[me].bundle, l.disk.trust, ra, c); }
      if IsAfter(g, us.units[me].bundle) { AfterMeansNews(g, r, us.units[me].bundle, l.disk.trust, ra); }
      forall i: nat, c | i < |told.units| && c in told.trust && c in News(g) ensures c in told.units[i].published {
        if me == us.leader {
          TrustedByAllMeans(told.units, c);
        }
      }
    }
  }

  lemma PassBagOk(
      g: Generation, r: Generation, role: Role, l: Local, us: AppBag, them: AppBag, me: nat, ra: bool, clock: nat)
    requires GoodGeneration(g) && Apart(g, r)
    requires BagOk(g, us) && me < |us.units| && UnitOk(g, r, l, us.units[me], ra, clock)
    ensures BagOk(g, PassBag(role, l, us, them, me))
    ensures UnitOk(g, r, l, PassBag(role, l, us, them, me).units[me], ra, clock)
  {
    hide PublishTrust, HeldBack, AnyRotating, GoodGeneration, Apart, IsBefore, IsAfter, Stored, Timed, FilesHold, News;
    PublishOk(g, r, l, us, me, false, ra, clock);
    PublishKeeps(l, us, me, false);
    StoredBundle(g, r, us.units[me].bundle, l.disk.trust, ra);
  }

  /** A unit whose stores were installed afresh for a bundle within the plan. */
  lemma InstallOk(
      g: Generation, r: Generation, l: Local, b: UnitBag, told: UnitBag, kept: seq<Certificate>, ca: seq<Certificate>,
      ra: bool, clock: nat)
    requires GoodGeneration(g) && GoodGeneration(r) && Offer(r, ca, ra)
    requires UnitOk(g, r, l, b, ra, clock) && told.published == b.published
    requires IsAfter(g, told.bundle) || (IsBefore(g, told.bundle) && IsBefore(g, b.bundle))
    requires kept == [] || (IsBefore(g, kept) && IsAfter(g, told.bundle))
    requires Coherent(l.(disk := Install(told.bundle, ca, kept, clock + 1)), told, clock + 1)
    ensures UnitOk(g, r, l.(disk := Install(told.bundle, ca, kept, clock + 1)), told, ra, clock + 1)
  {
    GenerationsDiffer(g, b.bundle);
    hide Install, GoodGeneration, IsBefore, IsAfter, Offer, Stored, Coherent, News;
    InstalledStored(g, r, told.bundle, ca, kept, ra, clock + 1);
  }

  /** A hook about to run on a unit in order, within the plan. */
  ghost predicate Ready(
      g: Generation, r: Generation, s: Step, l: Local, us: AppBag, them: AppBag, ra: bool, clock: nat) {
    && GoodGeneration(g) && GoodGeneration(r) && Apart(g, r)
    && Fits(s, us) && BagOk(g, us) && Offer(r, them.ca, ra)
    && UnitOk(g, r, l, us.units[s.me], ra, clock)
    && (s.CertificateStep? ==> IsAfter(g, s.bundle) || (IsBefore(g, s.bundle) && IsBefore(g, us.units[s.me].bundle)))
    && (s.BrokenStep? ==> IsAfter(g, s.bundle) && IsBefore(g, us.units[s.me].bundle))
    && (s.OfferStep? ==> s.me == us.leader)
  }

  ghost predicate Done(
      g: Generation, r: Generation, s: Step, l: Local, us: AppBag, them: AppBag, ra: bool, clock: nat)
    requires Fits(s, us)
  {
    && BagOk(g, BagAfter(s, l, us, them))
    && UnitOk(g, r, LocalAfter(s, l, us, them, clock + 1), BagAfter(s, l, us, them).units[s.me], ra, clock + 1)
  }

  /** The stores and the databag entry stay coherent, whatever the plan. */
  ghost predicate CoherentAfter(s: Step, l: Local, us: AppBag, them: AppBag, clock: nat)
    requires Fits(s, us)
  {
    Coherent(LocalAfter(s, l, us, them, clock + 1), BagAfter(s, l, us, them).units[s.me], clock + 1)
  }

  /** What the two certificate events leave behind. */
  lemma CertificateShape(s: Step, l: Local, us: AppBag, them: AppBag, now: nat)
    requires (s.CertificateStep? || s.BrokenStep?) && Fits(s, us)
    ensures var b, told := us.units[s.me], BagAfter(s, l, us, them);
            var kept := if s.BrokenStep? || s.bundle[1] != b.bundle[1] then b.bundle else [];
            && LocalAfter(s, l, us, them, now) == l.(disk := Install(s.bundle, them.ca, kept, now))
            && told.units[s.me].bundle == s.bundle && told.units[s.me].published == b.published
            && told.trust == us.trust && told.leader == us.leader
            && (told.ca == us.ca || (s.me == us.leader && told.ca == s.bundle))
            && (forall i: nat | i < |us.units| :: told.units[i].published == us.units[i].published)
            && (forall i: nat | i < |us.units| && i != s.me :: told.units[i] == us.units[i])
  {
    hide Install;
  }

  lemma CertificateStepOk(
      g: Generation, r: Generation, s: Step, l: Local, us: AppBag, them: AppBag, ra: bool, clock: nat)
    requires s.CertificateStep? || s.BrokenStep?
    requires Ready(g, r, s, l, us, them, ra, clock) && CoherentAfter(s, l, us, them, clock)
    ensures Done(g, r, s, l, us, them, ra, clock)
  {
    var b := us.units[s.me];
    var kept := if s.BrokenStep? || s.bundle[1] != b.bundle[1] then b.bundle else [];
    if s.CertificateStep? { KeptBundle(g, b.bundle, s.bundle); }
    CertificateBagOk(g, r, s, l, us, them, ra, clock);
    CertificateShape(s, l, us, them, clock + 1);
    hide LocalAfter, BagAfter, BagOk, UnitOk, IsAfter, IsBefore, GoodGeneration, Offer, Install, Apart, Coherent;
    InstallOk(g, r, l, b, BagAfter(s, l, us, them).units[s.me], kept, them.ca, ra, clock);
  }

  /** A bundle is kept only when the unit changes over to the second generation. */
  lemma KeptBundle(g: Generation, was: seq<Certificate>, bundle: seq<Certificate>)
    requires |was| >= 2 && |bundle| >= 2 && (IsBefore(g, was) || IsAfter(g, was))
    requires IsAfter(g, bundle) || (IsBefore(g, bundle) && IsBefore(g, was))
    ensures bundle[1] != was[1] ==> IsBefore(g, was) && IsAfter(g, bundle)
  {
    assert bundle[1] == bundle[1..][0] && was[1] == was[1..][0];
  }

  lemma CertificateBagOk(
      g: Generation, r: Generation, s: Step, l: Local, us: AppBag, them: AppBag, ra: bool, clock: nat)
    requires s.CertificateStep? || s.BrokenStep?
    requires Ready(g, r, s, l, us, them, ra, clock)
    ensures BagOk(g, BagAfter(s, l, us, them))
  {
    hide LocalAfter, BagAfter, BagOk, IsBefore, IsAfter, GoodGeneration, Offer, Apart, Coherent, Stored, Install, News;
    GenerationsDiffer(g, us.units[s.me].bundle);
    CertificateShape(s, l, us, them, clock + 1);
    BagKept(g, us, BagAfter(s, l, us, them), s.me);
  }

  /** A unit's new bundle, offered if the unit leads, is in order. */
  lemma BagKept(g: Generation, us: AppBag, told: AppBag, me: nat)
    requires GoodGeneration(g) && BagOk(g, us) && me < |us.units| && |told.units| == |us.units|
    requires told.trust == us.trust && told.leader == us.leader
    requires told.ca == us.ca || (me == us.leader && told.ca == told.units[me].bundle)
    requires forall i: nat | i < |us.units| :: told.units[i].published == us.units[i].published
    requires forall i: nat | i < |us.units| && i != me :: told.units[i] == us.units[i]
    requires IsAfter(g, told.units[me].bundle) ||
             (IsBefore(g, told.units[me].bundle) && IsBefore(g, us.units[me].bundle))
    requires !(IsBefore(g, us.units[me].bundle) && IsAfter(g, us.units[me].bundle))
    ensures BagOk(g, told)
  {
    hide GoodGeneration, IsBefore, IsAfter, News;
  }

  lemma PassStepOk(g: Generation, r: Generation, s: Step, l: Local, us: AppBag, them: AppBag, ra: bool, clock: nat)
    requires s.ConfigStep? && Ready(g, r, s, l, us, them, ra, clock) && CoherentAfter(s, l, us, them, clock)
    ensures Done(g, r, s, l, us, them, ra, clock)
  {
    PassBagOk(g, r, s.role, l, us, them, s.me, ra, clock);
    PassKeepsBundles(s.role, l, us, them, s.me);
    hide PassBag, PeerPass, GoodGeneration, IsBefore, IsAfter, Offer, Stored, Coherent, News, HeldBack, BagOk,
      PublishTrust;
    PassStored(g, r, us.units[s.me].bundle, l.disk, them.ca, ra, clock + 1);
  }

  lemma StatusStepOk(g: Generation, r: Generation, s: Step, l: Local, us: AppBag, them: AppBag, ra: bool, clock: nat)
    requires s.StatusStep? && Ready(g, r, s, l, us, them, ra, clock) && CoherentAfter(s, l, us, them, clock)
    ensures Done(g, r, s, l, us, them, ra, clock)
  {
    hide BagAfter, LocalAfter, GoodGeneration, IsBefore, IsAfter, Apart, Coherent, Stored, BagOk, UnitOk, Rebuild;
    var pass := ConfigStep(s.role, s.me, s.properties);
    StatusPass(g, r, s, l, us, them, ra, clock);
    StatusShape(s, l, us, them, clock + 1);
    var passed, told := LocalAfter(pass, l, us, them, clock + 1), BagAfter(pass, l, us, them).units[s.me];
    if LocalAfter(s, l, us, them, clock + 1) != passed {
      RebuiltOk(g, r, passed, told, them.ca, ra, clock + 1);
    }
  }

  /** An `update_status` hook is a pass that a rebuild may follow. */
  lemma StatusShape(s: Step, l: Local, us: AppBag, them: AppBag, now: nat)
    requires s.StatusStep? && Fits(s, us)
    ensures var pass := ConfigStep(s.role, s.me, s.properties);
            var passed, told := LocalAfter(pass, l, us, them, now), BagAfter(pass, l, us, them);
            && told == BagAfter(s, l, us, them) && told.units[s.me].bundle == us.units[s.me].bundle
            && LocalAfter(s, l, us, them, now)
               == if CleanupDue(passed, told, them, s.me)
                  then passed.(disk := Rebuild(passed.disk, told.units[s.me].bundle, them.ca, now), pending := true)
                  else passed
  {
    hide PassBag, PassLocal, Rebuild, CleanupDue;
    PassKeepsBundles(s.role, l, us, them, s.me);
  }

  lemma RebuiltOk(g: Generation, r: Generation, l: Local, b: UnitBag, ca: seq<Certificate>, ra: bool, clock: nat)
    requires GoodGeneration(r) && Offer(r, ca, ra) && UnitOk(g, r, l, b, ra, clock)
    requires Coherent(l.(disk := Rebuild(l.disk, b.bundle, ca, clock), pending := true), b, clock)
    ensures UnitOk(g, r, l.(disk := Rebuild(l.disk, b.bundle, ca, clock), pending := true), b, ra, clock)
  {
    hide Rebuild, GoodGeneration, IsBefore, IsAfter, Offer, Timed, FilesHold, News, Stored;
    StoredBundle(g, r, b.bundle, l.disk.trust, ra);
    RebuiltStored(g, r, b.bundle, l.disk, ca, ra, clock);
  }

  /** An `update_status` hook starts like a `config_changed` pass. */
  lemma StatusPass(g: Generation, r: Generation, s: Step, l: Local, us: AppBag, them: AppBag, ra: bool, clock: nat)
    requires s.StatusStep? && Ready(g, r, s, l, us, them, ra, clock)
    ensures var pass := ConfigStep(s.role, s.me, s.properties);
            Ready(g, r, pass, l, us, them, ra, clock) && Done(g, r, pass, l, us, them, ra, clock)
  {
    hide BagOk, BagAfter, LocalAfter, FilesHold, Stored, IsBefore, IsAfter, GoodGeneration, Apart, News;
    var pass := ConfigStep(s.role, s.me, s.properties);
    LocalCoherent(pass, l, us, them, clock);
    PassStepOk(g, r, pass, l, us, them, ra, clock);
  }

  lemma RestartStepOk(g: Generation, r: Generation, s: Step, l: Local, us: AppBag, them: AppBag, ra: bool, clock: nat)
    requires s.RestartStep? && Ready(g, r, s, l, us, them, ra, clock) && CoherentAfter(s, l, us, them, clock)
    ensures Done(g, r, s, l, us, them, ra, clock)
  {
    var up := l.(loadedTrust := l.disk.trust, loadedKey := l.disk.keystore);
    assert Coherent(up, us.units[s.me], clock);
    assert PublishTrust(up, us, s.me, true) == PublishTrust(l, us, s.me, true);
    PublishKeeps(l, us, s.me, true);
    PublishOk(g, r, up, us, s.me, true, ra, clock);
    hide PublishTrust, GoodGeneration, Apart, IsBefore, IsAfter, Stored, Coherent, News;
  }

  lemma BagStepOk(g: Generation, r: Generation, s: Step, l: Local, us: AppBag, them: AppBag, ra: bool, clock: nat)
    requires (s.OfferStep? || s.ElectStep?) && Ready(g, r, s, l, us, them, ra, clock) &&
             CoherentAfter(s, l, us, them, clock)
    ensures Done(g, r, s, l, us, them, ra, clock)
  {
    hide FilesHold;
  }

  /** A hook of one unit keeps that unit in order. */
  lemma StepUnitOk(g: Generation, r: Generation, s: Step, l: Local, us: AppBag, them: AppBag, ra: bool, clock: nat)
    requires Ready(g, r, s, l, us, them, ra, clock)
    requires s.CertificateStep? || s.BrokenStep? ==> GoodBundle(s.bundle)
    ensures Done(g, r, s, l, us, them, ra, clock)
  {
    assert CoherentAfter(s, l, us, them, clock) by {
      assert Coherent(l, us.units[s.me], clock);
      LocalCoherent(s, l, us, them, clock);
    }
    hide *;
    match s
    case CertificateStep(_, _, _) => CertificateStepOk(g, r, s, l, us, them, ra, clock);
    case BrokenStep(_, _, _) => CertificateStepOk(g, r, s, l, us, them, ra, clock);
    case ConfigStep(_, _, _) => PassStepOk(g, r, s, l, us, them, ra, clock);
    case RestartStep(_, _, _) => RestartStepOk(g, r, s, l, us, them, ra, clock);
    case StatusStep(_, _, _) => StatusStepOk(g, r, s, l, us, them, ra, clock);
    case OfferStep(_, _) => BagStepOk(g, r, s, l, us, them, ra, clock);
    case ElectStep(_, _) => BagStepOk(g, r, s, l, us, them, ra, clock);
  }

  // ---- Whole runs ----

  lemma UnitLater(g: Generation, r: Generation, l: Local, b: UnitBag, ra: bool, later: bool, clock: nat)
    requires UnitOk(g, r, l, b, ra, clock) && (ra ==> later)
    ensures UnitOk(g, r, l, b, later, clock + 1)
  {
    hide IsAfter, IsBefore, FilesHold, OwnFiled, News;
    if later && !ra {
      StoredLater(g, r, b.bundle, l.disk.trust, ra);
      StoredLater(g, r, l.loadedKey, l.loadedTrust, ra);
    }
  }

  /** With a steady leader, an application that has offered its new CA does not go back to the old one. */
  lemma OfferStays(g: Generation, s: Step, l: Local, us: AppBag, them: AppBag)
    requires GoodGeneration(g) && Fits(s, us) && Steady(g, us)
    requires s.CertificateStep? || s.BrokenStep? ==>
               IsAfter(g, s.bundle) || (IsBefore(g, s.bundle) && IsBefore(g, us.units[s.me].bundle))
    requires s.OfferStep? ==> s.me == us.leader
    requires s.ElectStep? ==> IsAfter(g, us.ca) ==> IsAfter(g, us.units[s.me].bundle)
    ensures IsAfter(g, us.ca) ==> IsAfter(g, BagAfter(s, l, us, them).ca)
    ensures Steady(g, BagAfter(s, l, us, them))
  {
    hide BagAfter, GoodGeneration, IsBefore, IsAfter;
    GenerationsDiffer(g, us.units[us.leader].bundle);
    GenerationsDiffer(g, us.units[s.me].bundle);
    OfferSource(s, l, us, them);
    StepBundles(s, l, us, them);
    if s.ElectStep? { Elected(s, l, us, them); }
  }

  lemma Elected(s: Step, l: Local, us: AppBag, them: AppBag)
    requires s.ElectStep? && Fits(s, us)
    ensures BagAfter(s, l, us, them) == us.(leader := s.me)
  {
  }

  lemma OfferSource(s: Step, l: Local, us: AppBag, them: AppBag)
    requires Fits(s, us)
    ensures var ca := BagAfter(s, l, us, them).ca;
            || ca == us.ca
            || ((s.CertificateStep? || s.BrokenStep?) && s.me == us.leader && ca == s.bundle)
            || (s.me == us.leader && ca == us.units[s.me].bundle)
            || (s.OfferStep? && ca == us.units[s.me].bundle)
  {
    PublishKeeps(l, us, s.me, false);
    PublishKeeps(l, us, s.me, true);
    hide HeldBack, AnyRotating, PublishTrust;
  }

  lemma StepReady(p: Plan, w: World, o: Offers, s: Step)
    requires GoodPlan(p) && WellFormedWorld(w) && Sound(p, w, o) && Enabled(w, s) && Moving(p, w, s)
    ensures Ready(p.Of(s.role), p.Of(s.role.Other()), s, w.Of(s.role).locals[s.me], w.Of(s.role).bag,
                  w.Of(s.role.Other()).bag, o.Of(s.role.Other()), w.clock)
  {
    hide UnitOk, IsBefore, IsAfter, GoodGeneration, Apart;
    assert BagOk(p.Of(s.role.Other()), w.Of(s.role.Other()).bag);
  }

  lemma AppOkElsewhere(
      g: Generation, r: Generation, app: App, us: AppBag, told: AppBag, ra: bool, later: bool, clock: nat)
    requires WellFormedApp(app) && AppOk(g, r, app, us, ra, clock)
    requires (ra ==> later) && (IsAfter(r, told.ca) ==> later)
    ensures AppOk(g, r, app, told, later, clock + 1)
  {
    hide UnitOk, BagOk, IsAfter;
    forall i: nat | i < |app.locals| ensures UnitOk(g, r, app.locals[i], app.bag.units[i], later, clock + 1) {
      UnitLater(g, r, app.locals[i], app.bag.units[i], ra, later, clock);
    }
  }

  lemma SoundFromParts(p: Plan, w: World, role: Role, o: Offers)
    requires WellFormedWorld(w)
    requires AppOk(p.Of(role), p.Of(role.Other()), w.Of(role), w.Of(role.Other()).bag, o.Of(role.Other()), w.clock)
    requires AppOk(p.Of(role.Other()), p.Of(role), w.Of(role.Other()), w.Of(role).bag, o.Of(role), w.clock)
    ensures Sound(p, w, o)
  {
    hide AppOk, WellFormedApp;
    if role.BrokerApp? {} else {}
  }

  /** An application whose step has left its own unit in order is in order. */
  lemma AppOkHere(
      g: Generation, r: Generation, app: App, after: App, them: AppBag, me: nat, ra: bool, clock: nat)
    requires WellFormedApp(app) && WellFormedApp(after) && AppOk(g, r, app, them, ra, clock)
    requires |after.locals| == |app.locals| && me < |app.locals|
    requires forall i: nat | i < |app.locals| && i != me ::
               after.locals[i] == app.locals[i] && after.bag.units[i] == app.bag.units[i]
    requires BagOk(g, after.bag)
    requires UnitOk(g, r, after.locals[me], after.bag.units[me], ra, clock + 1)
    ensures AppOk(g, r, after, them, ra, clock + 1)
  {
    hide UnitOk, BagOk, IsAfter;
    forall i: nat | i < |after.locals| ensures UnitOk(g, r, after.locals[i], after.bag.units[i], ra, clock + 1) {
      if i != me {
        UnitLater(g, r, app.locals[i], app.bag.units[i], ra, ra, clock);
      }
    }
  }

  lemma StepForms(w: World, s: Step)
    requires WellFormedWorld(w) && Enabled(w, s)
    ensures WellFormedApp(w.Of(s.role)) && WellFormedApp(Apply(w, s).Of(s.role)) && s.me < |w.Of(s.role).locals|
    ensures Fits(s, w.Of(s.role).bag) && (s.CertificateStep? || s.BrokenStep? ==> GoodBundle(s.bundle))
  {
    hide BagAfter, LocalAfter;
  }

  lemma SoundAt(p: Plan, w: World, o: Offers, role: Role)
    requires WellFormedWorld(w) && Sound(p, w, o)
    ensures AppOk(p.Of(role), p.Of(role.Other()), w.Of(role), w.Of(role.Other()).bag, o.Of(role.Other()), w.clock)
  {
    hide AppOk, WellFormedApp;
  }

  lemma SafeAt(p: Plan, w: World, role: Role)
    requires WellFormedWorld(w) && Safe(p, w)
    ensures AppOk(p.Of(role), p.Of(role.Other()), w.Of(role), w.Of(role.Other()).bag,
                  IsAfter(p.Of(role.Other()), w.Of(role.Other()).bag.ca), w.clock)
    ensures Steady(p.Of(role), w.Of(role).bag)
  {
    hide AppOk, WellFormedApp, IsAfter, Steady;
    SoundAt(p, w, OffersNow(p, w), role);
  }

  lemma DoneHere(
      g: Generation, r: Generation, s: Step, app: App, after: App, them: AppBag, ra: bool, clock: nat)
    requires WellFormedApp(app) && WellFormedApp(after) && AppOk(g, r, app, them, ra, clock) && Fits(s, app.bag)
    requires |after.locals| == |app.locals|
    requires forall i: nat | i < |app.locals| && i != s.me ::
               after.locals[i] == app.locals[i] && after.bag.units[i] == app.bag.units[i]
    requires after.bag == BagAfter(s, app.locals[s.me], app.bag, them)
    requires after.locals[s.me] == LocalAfter(s, app.locals[s.me], app.bag, them, clock + 1)
    requires Done(g, r, s, app.locals[s.me], app.bag, them, ra, clock)
    ensures AppOk(g, r, after, them, ra, clock + 1)
  {
    hide BagAfter, LocalAfter, UnitOk, BagOk, IsAfter, AppOk;
    AppOkHere(g, r, app, after, them, s.me, ra, clock);
  }

  lemma StepAppOk(p: Plan, w: World, o: Offers, s: Step)
    requires GoodPlan(p) && WellFormedWorld(w) && Sound(p, w, o) && Enabled(w, s) && Moving(p, w, s)
    ensures AppOk(p.Of(s.role), p.Of(s.role.Other()), Apply(w, s).Of(s.role), w.Of(s.role.Other()).bag,
                  o.Of(s.role.Other()), w.clock + 1)
  {
    hide *;
    StepForms(w, s);
    StepReady(p, w, o, s);
    StepHere(w, s);
    SoundAt(p, w, o, s.role);
    var g, r, ra := p.Of(s.role), p.Of(s.role.Other()), o.Of(s.role.Other());
    var app, them := w.Of(s.role), w.Of(s.role.Other()).bag;
    StepUnitOk(g, r, s, app.locals[s.me], app.bag, them, ra, w.clock);
    DoneHere(g, r, s, app, Apply(w, s).Of(s.role), them, ra, w.clock);
  }

  /** Every step within the plan keeps the invariant, whoever leads. */
  lemma StepSound(p: Plan, w: World, o: Offers, s: Step)
    requires GoodPlan(p) && WellFormedWorld(w) && Sound(p, w, o) && Enabled(w, s) && Moving(p, w, s)
    ensures Sound(p, Apply(w, s), OffersAfter(p, Apply(w, s), o, s.role))
  {
    hide BagAfter, LocalAfter, AppOk, IsAfter, Moving, GoodPlan, Sound, Enabled, Apply, WellFormedApp;
    var after := Apply(w, s);
    var later := OffersAfter(p, after, o, s.role);
    StepForms(w, s);
    StepHere(w, s);
    StepAppOk(p, w, o, s);
    SoundAt(p, w, o, s.role.Other());
    assert s.role.Other().Other() == s.role && later.Of(s.role.Other()) == o.Of(s.role.Other());
    AppOkElsewhere(p.Of(s.role.Other()), p.Of(s.role), w.Of(s.role.Other()), w.Of(s.role).bag, after.Of(s.role).bag,
                   o.Of(s.role), later.Of(s.role), w.clock);
    SoundFromParts(p, after, s.role, later);
  }

  /** Steps that do not disturb leadership keep the stronger one. */
  lemma StepSafe(p: Plan, w: World, s: Step)
    requires GoodPlan(p) && WellFormedWorld(w) && Safe(p, w) && Enabled(w, s) && Allowed(p, w, s)
    ensures Safe(p, Apply(w, s))
  {
    hide BagAfter, LocalAfter, IsAfter, IsBefore, Sound, Apply, WellFormedApp, Steady, GoodGeneration, Apart;
    var app, other := w.Of(s.role), w.Of(s.role.Other());
    StepForms(w, s);
    StepHere(w, s);
    StepElsewhere(w, s, s.role.Other(), 0);
    SafeAt(p, w, s.role);
    SafeAt(p, w, s.role.Other());
    StepSound(p, w, OffersNow(p, w), s);
    OfferStays(p.Of(s.role), s, app.locals[s.me], app.bag, other.bag);
    assert OffersAfter(p, Apply(w, s), OffersNow(p, w), s.role) == OffersNow(p, Apply(w, s));
    if s.role.BrokerApp? {} else {}
  }

  lemma {:induction false} RunSafe(p: Plan, w: World, steps: seq<Step>)
    requires GoodPlan(p) && WellFormedWorld(w) && Safe(p, w) && Runs(w, steps) && AllowedRun(p, w, steps)
    ensures Safe(p, Run(w, steps))
    decreases |steps|
  {
    if steps != [] {
      var n := |steps| - 1;
      RunSafe(p, w, steps[..n]);
      StepSafe(p, Run(w, steps[..n]), steps[n]);
    }
  }

  lemma {:induction false} RunSound(p: Plan, w: World, o: Offers, steps: seq<Step>) returns (later: Offers)
    requires GoodPlan(p) && WellFormedWorld(w) && Sound(p, w, o) && Runs(w, steps) && MovingRun(p, w, steps)
    ensures Sound(p, Run(w, steps), later)
    decreases |steps|
  {
    later := o;
    if steps != [] {
      var n := |steps| - 1;
      later := RunSound(p, w, o, steps[..n]);
      StepSound(p, Run(w, steps[..n]), later, steps[n]);
      later := OffersAfter(p, Run(w, steps), later, steps[n].role);
    }
  }

  /** Both applications at rest on their first generation: every unit has its own bundle and the
      remote offer installed, loaded and published. */
  ghost predicate AtRest(p: Plan, w: World)
    requires WellFormedWorld(w)
  {
    forall role: Role ::
      && RestBag(p.Of(role), w.Of(role).bag)
      && forall i: nat | i < |w.Of(role).locals| ::
           RestUnit(p.Of(role), w.Of(role).locals[i], w.Of(role).bag.units[i], w.Of(role.Other()).bag, w.clock)
  }

  ghost predicate RestBag(g: Generation, us: AppBag) {
    && WellFormed(us) && us.ca == us.units[us.leader].bundle && us.trust == TrustedByAll(us.units) && !us.rotating
    && IsBefore(g, us.ca)
  }

  ghost predicate RestUnit(g: Generation, l: Local, b: UnitBag, them: AppBag, clock: nat) {
    && IsBefore(g, b.bundle) && !b.rotate && !l.pending
    && l.disk == Install(b.bundle, them.ca, [], l.disk.modified)
    && l.loadedTrust == l.disk.trust && l.loadedKey == b.bundle && b.published == l.disk.trust.Values
    && l.disk.modified < l.lastRestart <= clock
  }

  function RestBundle(g: Generation, i: nat): seq<Certificate> { [Leaf(i)] + g.before }

  /** An application of `n` units at rest, beside the remote offer `remote`. */
  function RestApp(g: Generation, remote: seq<Certificate>, n: nat): App
    requires n > 0
  {
    var disks := seq(n, i requires 0 <= i < n => Install(RestBundle(g, i), remote, [], 1));
    var units := seq(n, i requires 0 <= i < n => UnitBag(RestBundle(g, i), false, disks[i].trust.Values));
    App(AppBag(units, 0, RestBundle(g, 0), TrustedByAll(units), false),
        seq(n, i requires 0 <= i < n => Local(disks[i], disks[i].trust, RestBundle(g, i), 2, false)))
  }

  /** Every plan has such applications, of any size. */
  lemma RestIsPossible(p: Plan, brokers: nat, controllers: nat) returns (w: World)
    requires GoodPlan(p) && brokers > 0 && controllers > 0
    requires DuplicateFree(p.broker.before) && DuplicateFree(p.controller.before)
    ensures WellFormedWorld(w) && AtRest(p, w)
    ensures |w.broker.locals| == brokers && |w.controller.locals| == controllers
  {
    hide Install, TrustedByAll;
    var b, c := RestApp(p.broker, RestBundle(p.controller, 0), brokers),
      RestApp(p.controller, RestBundle(p.broker, 0), controllers);
    RestAppRests(p.broker, RestBundle(p.controller, 0), brokers);
    RestAppRests(p.controller, RestBundle(p.broker, 0), controllers);
    w := World(b, c, 2);
    forall role: Role ensures RestBag(p.Of(role), w.Of(role).bag)
      && forall i: nat | i < |w.Of(role).locals| ::
         RestUnit(p.Of(role), w.Of(role).locals[i], w.Of(role).bag.units[i], w.Of(role.Other()).bag, w.clock)
    {
      if role.BrokerApp? {
        forall i: nat | i < |b.locals| ensures RestUnit(p.broker, b.locals[i], b.bag.units[i], c.bag, 2) {
          RestUnitRests(p.broker, c.bag, brokers, i);
        }
      } else {
        forall i: nat | i < |c.locals| ensures RestUnit(p.controller, c.locals[i], c.bag.units[i], b.bag, 2) {
          RestUnitRests(p.controller, b.bag, controllers, i);
        }
      }
    }
  }

  lemma RestAppRests(g: Generation, remote: seq<Certificate>, n: nat)
    requires GoodGeneration(g) && DuplicateFree(g.before) && n > 0
    ensures var app := RestApp(g, remote, n);
            && |app.locals| == |app.bag.units| == n && WellFormedApp(app)
            && app.bag.ca == RestBundle(g, 0) && RestBag(g, app.bag)
  {
    hide Install, TrustedByAll;
    var app := RestApp(g, remote, n);
    forall u | u in app.bag.units ensures GoodBundle(u.bundle) {
      var i: nat :| i < n && app.bag.units[i] == u;
      GoodRest(g, i);
    }
    assert RestBundle(g, 0)[1..] == g.before;
  }

  lemma GoodRest(g: Generation, i: nat)
    requires GoodGeneration(g) && DuplicateFree(g.before)
    ensures GoodBundle(RestBundle(g, i))
  {
    assert forall j: nat | j < |g.before| :: g.before[j] in g.before && RestBundle(g, i)[j + 1] == g.before[j];
  }

  lemma RestUnitRests(g: Generation, them: AppBag, n: nat, i: nat)
    requires n > 0 && i < n
    ensures var app := RestApp(g, them.ca, n);
            |app.locals| == |app.bag.units| == n && RestUnit(g, app.locals[i], app.bag.units[i], them, 2)
  {
    hide Install, TrustedByAll;
    assert RestBundle(g, i)[1..] == g.before;
    InstallTrusts(RestBundle(g, i), them.ca, [], 1);
  }

  lemma RestUnitOk(g: Generation, r: Generation, l: Local, b: UnitBag, them: AppBag, clock: nat)
    requires GoodGeneration(g) && GoodGeneration(r) && Apart(g, r) && RestUnit(g, l, b, them, clock) &&
             IsBefore(r, them.ca)
    ensures UnitOk(g, r, l, b, false, clock)
  {
    GenerationsDiffer(r, them.ca);
    GenerationsDiffer(g, b.bundle);
    assert b.bundle != [];
    assert Stored(g, r, b.bundle, l.disk.trust, false) && l.disk.keystore == b.bundle &&
      FilesHold(l.disk.files, b.bundle) by {
      hide *;
      InstallExact(b.bundle, them.ca, [], l.disk.modified);
      InstalledStored(g, r, b.bundle, them.ca, [], false, l.disk.modified);
      RestInstalled(g, l, b, them, clock);
    }
    assert l.loadedTrust == l.disk.trust && l.loadedKey == b.bundle && b.published == l.disk.trust.Values;
    assert l.disk.modified <= l.lastRestart <= clock;
    hide Install, IsBefore, IsAfter, GoodGeneration, Apart, Stored, FilesHold, RestUnit, News;
    NoNews(g, r, b.bundle, l.disk.trust);
  }

  lemma NoNews(g: Generation, r: Generation, bundle: seq<Certificate>, t: Trust)
    requires GoodGeneration(g) && Apart(g, r) && Stored(g, r, bundle, t, false) && !IsAfter(g, bundle)
    ensures t.Values !! News(g)
  {
    hide *;
    if c :| c in t.Values && c in News(g) { NewsMeansAfter(g, r, bundle, t, false, c); }
  }

  lemma RestInstalled(g: Generation, l: Local, b: UnitBag, them: AppBag, clock: nat)
    requires RestUnit(g, l, b, them, clock)
    ensures l.disk == Install(b.bundle, them.ca, [], l.disk.modified) && IsBefore(g, b.bundle)
  {
  }

  lemma RestAppOk(p: Plan, w: World, role: Role)
    requires GoodPlan(p) && WellFormedWorld(w) && AtRest(p, w)
    ensures AppOk(p.Of(role), p.Of(role.Other()), w.Of(role), w.Of(role.Other()).bag, false, w.clock)
    ensures !IsAfter(p.Of(role), w.Of(role).bag.ca) && Steady(p.Of(role), w.Of(role).bag)
  {
    var g, r, us, them := p.Of(role), p.Of(role.Other()), w.Of(role).bag, w.Of(role.Other()).bag;
    assert GoodGeneration(g) && GoodGeneration(r) && Apart(g, r);
    hide GoodPlan, GoodGeneration, Apart, IsBefore, IsAfter, RestUnit, UnitOk, TrustedByAll, News;
    assert RestBag(g, us) && RestBag(r, them);
    RestBagOk(g, us);
    RestBagOk(r, them);
    forall i: nat | i < |w.Of(role).locals| ensures UnitOk(g, r, w.Of(role).locals[i], us.units[i], false, w.clock) {
      RestUnitOk(g, r, w.Of(role).locals[i], us.units[i], them, w.clock);
    }
  }

  lemma RestBagOk(g: Generation, us: AppBag)
    requires GoodGeneration(g) && RestBag(g, us)
    ensures BagOk(g, us) && !IsAfter(g, us.ca) && Steady(g, us)
  {
    GenerationsDiffer(g, us.ca);
    hide TrustedByAll, IsBefore, IsAfter, GoodGeneration;
    forall i: nat, c | i < |us.units| && c in us.trust
      ensures c in us.units[i].published { TrustedByAllMeans(us.units, c); }
  }

  lemma RestSafe(p: Plan, w: World)
    requires GoodPlan(p) && WellFormedWorld(w) && AtRest(p, w)
    ensures Sound(p, w, Offers(false, false)) && Safe(p, w)
    ensures CoherentWorld(w)
  {
    hide GoodPlan, AtRest, AppOk, WellFormedApp, IsAfter, Steady;
    RestAppOk(p, w, BrokerApp);
    RestAppOk(p, w, ControllerApp);
    SoundCoherent(p, w, Offers(false, false));
  }

  lemma SoundCoherent(p: Plan, w: World, o: Offers)
    requires WellFormedWorld(w) && Sound(p, w, o)
    ensures CoherentWorld(w)
  {
    hide IsBefore, IsAfter, Stored, BagOk, Coherent, WellFormedApp;
    forall role: Role ensures CoherentApp(w.Of(role), w.clock) {
      SoundAt(p, w, o, role);
      Sized(w, role);
      var g, r, app := p.Of(role), p.Of(role.Other()), w.Of(role);
      forall i: nat | i < |app.locals| ensures Coherent(app.locals[i], app.bag.units[i], w.clock) {
        assert UnitOk(g, r, app.locals[i], app.bag.units[i], o.Of(role.Other()), w.clock);
      }
    }
    assert CoherentApp(w.Of(BrokerApp), w.clock) && CoherentApp(w.Of(ControllerApp), w.clock);
  }
}
