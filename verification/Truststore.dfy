/** The peer truststore of one unit, as `src/managers/tls.py` builds it with keytool.

    A certificate is known by its fingerprint; distinct certificates are taken to have distinct
    fingerprints.  A truststore that does not exist on disk is the empty map: every routine that
    creates the file leaves at least one entry in it. */
module Truststore {

  datatype Certificate = Leaf(serial: nat) | Authority(serial: nat)

  /** `bundle{i}`, `old-bundle{i}`, `cluster-tls{i}` and `new-cluster-tls{i}`. */
  datatype Alias = Bundle(i: nat) | OldBundle(i: nat) | ClusterTls(i: nat) | NewClusterTls(i: nat)
  {
    /** The alias carries the `old-` or the `new-` prefix. */
    predicate Temporary() { OldBundle? || NewClusterTls? }
  }

  type Trust = map<Alias, Certificate>

  /** What one unit keeps on disk for the peer scope: truststore, `.pem` files, the bundle exported
      into the keystore, and the modification time of the truststore. */
  datatype Disk = Disk(trust: Trust, files: Trust, keystore: seq<Certificate>, modified: nat)

  function Members(bundle: seq<Certificate>): set<Certificate> {
    set c | c in bundle
  }

  ghost predicate DuplicateFree(bundle: seq<Certificate>) {
    forall i, j | 0 <= i < j < |bundle| :: bundle[i] != bundle[j]
  }

  /** `sorted(set(bundle), key=bundle.index)`: each certificate once, in the order of first occurrence. */
  function FirstOccurrences(certs: seq<Certificate>): seq<Certificate> {
    if certs == [] then []
    else
      var front, last := FirstOccurrences(certs[..|certs| - 1]), certs[|certs| - 1];
      if last in front then front else front + [last]
  }

  function BundleOf(certificate: Certificate, ca: Certificate, chain: seq<Certificate>): seq<Certificate> {
    FirstOccurrences([certificate, ca] + chain)
  }

  lemma {:induction false} OccurrencesExact(certs: seq<Certificate>)
    ensures DuplicateFree(FirstOccurrences(certs)) && Members(FirstOccurrences(certs)) == Members(certs)
    decreases |certs|
  {
    if certs != [] {
      var n := |certs| - 1;
      OccurrencesExact(certs[..n]);
      var front, last := FirstOccurrences(certs[..n]), certs[n];
      assert certs == certs[..n] + [last];
      assert Members(certs) == Members(certs[..n]) + {last};
      assert last in front <==> last in Members(front);
      assert Members(front + [last]) == Members(front) + {last};
    }
  }

  lemma {:induction false} OccurrencesStart(certs: seq<Certificate>, n: nat)
    requires n <= |certs| && DuplicateFree(certs[..n])
    ensures |FirstOccurrences(certs)| >= n && FirstOccurrences(certs)[..n] == certs[..n]
    decreases |certs|
  {
    if n < |certs| {
      assert certs[..|certs| - 1][..n] == certs[..n];
      OccurrencesStart(certs[..|certs| - 1], n);
    } else if n > 0 {
      assert certs[..n] == certs;
      SameLength(certs);
    }
  }

  lemma {:induction false} SameLength(certs: seq<Certificate>)
    requires DuplicateFree(certs)
    ensures FirstOccurrences(certs) == certs
    decreases |certs|
  {
    if certs != [] {
      var n := |certs| - 1;
      SameLength(certs[..n]);
      assert certs[n] !in certs[..n];
      assert certs == certs[..n] + [certs[n]];
    }
  }

  /** The bundle of a unit: no certificate twice, all of them there, and the certificate and its CA first. */
  lemma BundleShape(certificate: Certificate, ca: Certificate, chain: seq<Certificate>)
    requires certificate != ca
    ensures var b := BundleOf(certificate, ca, chain);
            && DuplicateFree(b) && Members(b) == {certificate, ca} + Members(chain)
            && |b| >= 2 && b[0] == certificate && b[1] == ca
  {
    var certs := [certificate, ca] + chain;
    OccurrencesExact(certs);
    assert certs[..2] == [certificate, ca];
    OccurrencesStart(certs, 2);
    assert FirstOccurrences(certs)[..2][0] == certificate && FirstOccurrences(certs)[..2][1] == ca;
    assert Members(certs) == {certificate, ca} + Members(chain);
  }

  predicate HasTemporary(t: Trust) {
    exists a | a in t :: a.Temporary()
  }

  // ---- The specification of the store operations ----

  /** The alias a missing certificate of the peer-cluster bundle is filed under. */
  function PeerAlias(t: Trust, i: nat): Alias {
    if ClusterTls(i) in t then NewClusterTls(i) else ClusterTls(i)
  }

  /** The entries one `update_peer_cluster_trust` pass writes for the first `n` bundle positions. */
  function Placed(t: Trust, bundle: seq<Certificate>, n: nat): Trust
    requires n <= |bundle|
  {
    map i: nat | 0 <= i < n && bundle[i] !in t.Values :: PeerAlias(t, i) := bundle[i]
  }

  function PeerPass(d: Disk, bundle: seq<Certificate>, now: nat): Disk {
    var entries := Placed(d.trust, bundle, |bundle|);
    if entries == map[] then d
    else d.(trust := d.trust + entries, files := d.files + entries, modified := now)
  }

  function BundleAlias(prior: bool, i: nat): Alias {
    if prior then OldBundle(i) else Bundle(i)
  }

  /** `.pem` files that `import_bundle` has to write first: those that are not there yet. */
  function MissingFiles(files: Trust, bundle: seq<Certificate>, prior: bool, n: nat): Trust
    requires n <= |bundle|
  {
    map i: nat | 0 <= i < n && BundleAlias(prior, i) !in files :: BundleAlias(prior, i) := bundle[i]
  }

  /** Aliases that `import_bundle` adds: keytool keeps an alias that already exists, and reads the
      certificate from the file even when the file is older than the bundle. */
  function MissingEntries(t: Trust, files: Trust, bundle: seq<Certificate>, prior: bool, n: nat): Trust
    requires n <= |bundle|
  {
    map i: nat | 0 <= i < n && BundleAlias(prior, i) !in t ::
      BundleAlias(prior, i) := if BundleAlias(prior, i) in files then files[BundleAlias(prior, i)] else bundle[i]
  }

  function ImportBundle(d: Disk, bundle: seq<Certificate>, prior: bool, now: nat): Disk {
    var entries := MissingEntries(d.trust, d.files, bundle, prior, |bundle|);
    d.(trust := d.trust + entries,
       files := d.files + MissingFiles(d.files, bundle, prior, |bundle|),
       modified := if entries == map[] then d.modified else now)
  }

  /** `set_chain` writes every `bundle{i}.pem` without looking. */
  function ChainFiles(bundle: seq<Certificate>): Trust {
    map i: nat | 0 <= i < |bundle| :: Bundle(i) := bundle[i]
  }

  function Configure(d: Disk, bundle: seq<Certificate>, remote: seq<Certificate>, now: nat): Disk {
    var written := if bundle == [] then d else d.(files := d.files + ChainFiles(bundle), keystore := bundle);
    PeerPass(ImportBundle(written, bundle, false, now), remote, now)
  }

  function Wiped(now: nat): Disk { Disk(map[], map[], [], now) }

  /** `remove_stores`, `configure`, and `import_bundle` of the old bundle when one is to be kept. */
  function Install(bundle: seq<Certificate>, remote: seq<Certificate>, kept: seq<Certificate>, now: nat): Disk {
    ImportBundle(Configure(Wiped(now), bundle, remote, now), kept, true, now)
  }

  function Rebuild(d: Disk, bundle: seq<Certificate>, remote: seq<Certificate>, now: nat): Disk {
    PeerPass(ImportBundle(d.(trust := map[], modified := now), bundle, false, now), remote, now)
  }

  /** The `bundle{i}.pem` files hold this bundle. */
  ghost predicate FilesHold(files: Trust, bundle: seq<Certificate>) {
    forall i: nat | i < |bundle| :: Bundle(i) in files && files[Bundle(i)] == bundle[i]
  }

  // ---- What a pass does ----

  /** A pass changes nothing exactly when every certificate of the bundle is already trusted. */
  lemma PassFixedPoint(d: Disk, bundle: seq<Certificate>, now: nat)
    ensures PeerPass(d, bundle, now) == d <==> Members(bundle) <= d.trust.Values
    ensures PeerPass(d, bundle, now).trust == d.trust <==> Members(bundle) <= d.trust.Values
  {
    var entries := Placed(d.trust, bundle, |bundle|);
    if i: nat :| i < |bundle| && bundle[i] !in d.trust.Values {
      assert PeerAlias(d.trust, i) in entries;
      var after := d.trust + entries;
      assert after[PeerAlias(d.trust, i)] == bundle[i];
      assert bundle[i] in Members(bundle) && bundle[i] in after.Values;
    } else {
      assert entries == map[];
    }
  }

  /** A pass brings in nothing but certificates of the bundle. */
  lemma PassAdds(d: Disk, bundle: seq<Certificate>, now: nat)
    ensures PeerPass(d, bundle, now).trust.Values <= d.trust.Values + Members(bundle)
    ensures PeerPass(d, bundle, now).keystore == d.keystore
  {
  }

  /** Every entry that a pass writes has its `.pem` file, no other file changes, and the truststore is newer
      exactly when the pass wrote something. */
  lemma PassFilesExact(d: Disk, bundle: seq<Certificate>, now: nat, a: Alias)
    ensures var r := PeerPass(d, bundle, now);
            && (if a in r.trust && (a !in d.trust || r.trust[a] != d.trust[a])
                then a in r.files && r.files[a] == r.trust[a]
                else (a in r.files <==> a in d.files) && (a in d.files ==> r.files[a] == d.files[a]))
            && r.modified == if r.trust == d.trust then d.modified else now
  {
    var r, entries := PeerPass(d, bundle, now), Placed(d.trust, bundle, |bundle|);
    PassFixedPoint(d, bundle, now);
    if a in entries {
      assert entries[a] in Members(bundle) && entries[a] !in d.trust.Values;
      assert a in d.trust ==> d.trust[a] in d.trust.Values;
    }
    if entries != map[] {
      var x :| x in entries;
      assert r.trust[x] == entries[x] && entries[x] !in d.trust.Values;
      assert x in d.trust ==> d.trust[x] in d.trust.Values;
    }
  }

  /** An import writes the files and the aliases that are missing, an alias from the file that is there; the
      truststore is newer exactly when an alias was added. */
  lemma ImportExact(d: Disk, bundle: seq<Certificate>, prior: bool, now: nat, i: nat)
    requires i < |bundle|
    ensures var r, a := ImportBundle(d, bundle, prior, now), if prior then OldBundle(i) else Bundle(i);
            && a in r.files && r.files[a] == (if a in d.files then d.files[a] else bundle[i])
            && a in r.trust && r.trust[a] == (if a in d.trust then d.trust[a] else r.files[a])
            && r.modified == if r.trust == d.trust then d.modified else now
  {
    hide MissingEntries, MissingFiles;
    var entries, files := MissingEntries(d.trust, d.files, bundle, prior, |bundle|),
                          MissingFiles(d.files, bundle, prior, |bundle|);
    forall a: Alias
      ensures (a in entries <==> a.i < |bundle| && a == BundleAlias(prior, a.i) && a !in d.trust)
      ensures a in entries ==> entries[a] == if a in d.files then d.files[a] else bundle[a.i]
      ensures (a in files <==> a.i < |bundle| && a == BundleAlias(prior, a.i) && a !in d.files)
      ensures a in files ==> files[a] == bundle[a.i]
    {
      MissingAt(d.trust, d.files, bundle, prior, |bundle|, a);
    }
    if entries != map[] {
      var x :| x in entries;
      assert x !in d.trust && x in d.trust + entries;
    } else {
      assert d.trust + entries == d.trust;
    }
  }

  /** A pass leaves every alias without the `new-` prefix as it was. */
  lemma PassKeeps(d: Disk, bundle: seq<Certificate>, now: nat, a: Alias)
    requires a in d.trust && !a.NewClusterTls?
    ensures a in PeerPass(d, bundle, now).trust && PeerPass(d, bundle, now).trust[a] == d.trust[a]
  {
  }

  /** Where an entry found after a pass comes from. */
  lemma PassOrigin(d: Disk, bundle: seq<Certificate>, now: nat, a: Alias)
    requires a in PeerPass(d, bundle, now).trust
    ensures var t, after := d.trust, PeerPass(d, bundle, now).trust;
            || (a in t && after[a] == t[a])
            || (a.i < |bundle| && after[a] == bundle[a.i] && bundle[a.i] !in t.Values && a == PeerAlias(t, a.i))
  {
  }

  /** A store without peer-cluster aliases trusts the whole bundle after one pass, which then uses
      `cluster-tls` aliases only. */
  lemma FreshPass(d: Disk, bundle: seq<Certificate>, now: nat)
    requires forall i: nat :: ClusterTls(i) !in d.trust && NewClusterTls(i) !in d.trust
    ensures PeerPass(d, bundle, now).trust.Values == d.trust.Values + Members(bundle)
    ensures forall a | a in PeerPass(d, bundle, now).trust ::
              if a.ClusterTls? then a.i < |bundle| && PeerPass(d, bundle, now).trust[a] == bundle[a.i]
              else a in d.trust
  {
    var after := PeerPass(d, bundle, now).trust;
    var entries := Placed(d.trust, bundle, |bundle|);
    forall c | c in d.trust.Values + Members(bundle) ensures c in after.Values {
      if c in d.trust.Values {
        var a :| a in d.trust && d.trust[a] == c;
        assert after[a] == c;
      } else {
        var i: nat :| i < |bundle| && bundle[i] == c;
        assert PeerAlias(d.trust, i) in entries;
        assert after[ClusterTls(i)] == c;
      }
    }
    PassAdds(d, bundle, now);
  }

  /** A store without `new-` aliases trusts the whole bundle after one pass too, and forgets nothing. */
  lemma FirstPass(d: Disk, bundle: seq<Certificate>, now: nat)
    requires forall i: nat :: NewClusterTls(i) !in d.trust
    ensures PeerPass(d, bundle, now).trust.Values == d.trust.Values + Members(bundle)
  {
    var after := PeerPass(d, bundle, now).trust;
    forall c | c in d.trust.Values + Members(bundle) ensures c in after.Values {
      if c in d.trust.Values {
        var a :| a in d.trust && d.trust[a] == c;
        assert after[a] == c;
      } else {
        var i: nat :| i < |bundle| && bundle[i] == c;
        assert PeerAlias(d.trust, i) in Placed(d.trust, bundle, |bundle|);
        assert after[PeerAlias(d.trust, i)] == c;
      }
    }
    PassAdds(d, bundle, now);
  }

  // ---- Convergence of repeated passes ----

  /** The certificate sits under its own index, where no later pass touches it. */
  predicate AtHome(t: Trust, bundle: seq<Certificate>, i: nat)
    requires i < |bundle|
  {
    (ClusterTls(i) in t && t[ClusterTls(i)] == bundle[i])
    || (NewClusterTls(i) in t && t[NewClusterTls(i)] == bundle[i])
  }

  function Astray(t: Trust, bundle: seq<Certificate>): set<nat> {
    set i: nat | 0 <= i < |bundle| && !AtHome(t, bundle, i)
  }

  function Passes(d: Disk, bundle: seq<Certificate>, now: nat, n: nat): Disk
    decreases n
  {
    if n == 0 then d else Passes(PeerPass(d, bundle, now), bundle, now, n - 1)
  }

  /** A pass that changes the store brings at least one more certificate home and moves none away,
      even though it may overwrite a `new-cluster-tls` entry holding another bundle certificate. */
  lemma PassBringsHome(d: Disk, bundle: seq<Certificate>, now: nat)
    requires !(Members(bundle) <= d.trust.Values)
    ensures Astray(PeerPass(d, bundle, now).trust, bundle) < Astray(d.trust, bundle)
  {
    var after := PeerPass(d, bundle, now).trust;
    var entries := Placed(d.trust, bundle, |bundle|);
    forall i: nat | i < |bundle| && AtHome(d.trust, bundle, i) ensures AtHome(after, bundle, i) {
      assert bundle[i] in d.trust.Values;
      assert ClusterTls(i) !in entries && NewClusterTls(i) !in entries;
    }
    var c :| c in Members(bundle) && c !in d.trust.Values;
    var k: nat :| k < |bundle| && bundle[k] == c;
    assert PeerAlias(d.trust, k) in entries;
    assert AtHome(after, bundle, k) && !AtHome(d.trust, bundle, k);
    assert k in Astray(d.trust, bundle) && k !in Astray(after, bundle);
  }

  /** Whatever the store holds at first, as many passes as there are certificates astray reach a
      store that trusts the whole bundle and that no further pass changes. */
  lemma {:induction false} PassesConverge(d: Disk, bundle: seq<Certificate>, now: nat, n: nat)
    requires |Astray(d.trust, bundle)| <= n
    ensures Members(bundle) <= Passes(d, bundle, now, n).trust.Values
    ensures PeerPass(Passes(d, bundle, now, n), bundle, now) == Passes(d, bundle, now, n)
    decreases n
  {
    hide PeerPass, Astray, Members;
    PassFixedPoint(d, bundle, now);
    if Members(bundle) <= d.trust.Values {
      PassesAtRest(d, bundle, now, n);
    } else {
      PassBringsHome(d, bundle, now);
      var next := PeerPass(d, bundle, now);
      SmallerSet(Astray(next.trust, bundle), Astray(d.trust, bundle));
      PassesConverge(next, bundle, now, n - 1);
    }
  }

  /** Nothing filed outside the `new-` aliases is lost, however many passes run. */
  lemma {:induction false} PassesKeep(d: Disk, bundle: seq<Certificate>, now: nat, n: nat, a: Alias)
    requires a in d.trust && !a.NewClusterTls?
    ensures a in Passes(d, bundle, now, n).trust && Passes(d, bundle, now, n).trust[a] == d.trust[a]
    decreases n
  {
    hide PeerPass;
    if n > 0 {
      PassKeeps(d, bundle, now, a);
      PassesKeep(PeerPass(d, bundle, now), bundle, now, n - 1, a);
    }
  }

  lemma {:induction false} PassesAtRest(d: Disk, bundle: seq<Certificate>, now: nat, n: nat)
    requires PeerPass(d, bundle, now) == d
    ensures Passes(d, bundle, now, n) == d
    decreases n
  {
    if n > 0 { PassesAtRest(d, bundle, now, n - 1); }
  }

  lemma {:induction false} SmallerSet<T>(a: set<T>, b: set<T>)
    requires a < b
    ensures |a| < |b|
  {
    var x :| x in b && x !in a;
    SubsetSize(a, b - {x});
  }

  lemma {:induction false} SubsetSize<T>(a: set<T>, b: set<T>)
    requires a <= b
    ensures |a| <= |b|
  {
    if a != {} {
      var x :| x in a;
      SubsetSize(a - {x}, b - {x});
    }
  }

  function Indices(n: nat): (r: set<nat>)
    ensures |r| == n
    ensures forall i: nat :: i in r <==> i < n
  {
    if n == 0 then {} else Indices(n - 1) + {n - 1}
  }

  /** So at most bundle-length passes change the store. */
  lemma AstrayBound(t: Trust, bundle: seq<Certificate>)
    ensures |Astray(t, bundle)| <= |bundle|
  {
    SubsetSize(Astray(t, bundle), Indices(|bundle|));
  }

  // ---- What installing and rebuilding do ----

  lemma ImportIntoEmpty(d: Disk, bundle: seq<Certificate>, now: nat)
    requires forall i: nat :: Bundle(i) !in d.trust
    requires FilesHold(d.files, bundle)
    ensures ImportBundle(d, bundle, false, now).trust == d.trust + ChainFiles(bundle)
    ensures ImportBundle(d, bundle, false, now).files == d.files
    ensures ImportBundle(d, bundle, false, now).keystore == d.keystore
    ensures d.modified == now ==> ImportBundle(d, bundle, false, now).modified == now
  {
    assert MissingEntries(d.trust, d.files, bundle, false, |bundle|) == ChainFiles(bundle);
    assert MissingFiles(d.files, bundle, false, |bundle|) == map[];
  }

  lemma ChainValues(bundle: seq<Certificate>)
    ensures ChainFiles(bundle).Values == Members(bundle)
  {
    forall c | c in Members(bundle) ensures c in ChainFiles(bundle).Values {
      var i: nat :| i < |bundle| && bundle[i] == c;
      assert ChainFiles(bundle)[Bundle(i)] == c;
    }
  }

  /** The own bundle under its `bundle` aliases, and no other `bundle` alias. */
  ghost predicate OwnFiled(t: Trust, bundle: seq<Certificate>) {
    && (forall i: nat :: Bundle(i) in t <==> i < |bundle|)
    && (forall i: nat | i < |bundle| :: t[Bundle(i)] == bundle[i])
  }

  /** Every `cluster-tls` alias holds the certificate at its index of the peer-cluster bundle. */
  ghost predicate PeersFiled(t: Trust, remote: seq<Certificate>) {
    forall i: nat | ClusterTls(i) in t :: i < |remote| && t[ClusterTls(i)] == remote[i]
  }

  lemma PassOverOwn(d: Disk, bundle: seq<Certificate>, remote: seq<Certificate>, now: nat)
    requires d.trust == ChainFiles(bundle)
    ensures var r := PeerPass(d, remote, now);
            && r.trust.Values == Members(bundle) + Members(remote)
            && (forall a | a in r.trust :: a.Bundle? || a.ClusterTls?)
            && OwnFiled(r.trust, bundle) && PeersFiled(r.trust, remote)
            && r.keystore == d.keystore
            && (FilesHold(d.files, bundle) ==> FilesHold(r.files, bundle))
            && (forall a | a in r.files :: a in d.files || a.ClusterTls?)
            && (d.modified == now ==> r.modified == now)
  {
    ChainValues(bundle);
    FreshPass(d, remote, now);
  }

  /** The rebuilt store holds the own bundle and the peer-cluster bundle and nothing else, under
      aliases that are not temporary: the condition that started the rebuild is gone. */
  lemma RebuildExact(d: Disk, bundle: seq<Certificate>, remote: seq<Certificate>, now: nat)
    requires FilesHold(d.files, bundle)
    ensures var r := Rebuild(d, bundle, remote, now);
            && r.trust.Values == Members(bundle) + Members(remote)
            && !HasTemporary(r.trust)
            && OwnFiled(r.trust, bundle) && PeersFiled(r.trust, remote)
            && r.keystore == d.keystore
            && FilesHold(r.files, bundle)
            && PeerPass(r, remote, now) == r
            && r.modified == now
  {
    hide PeerPass, ImportBundle, FilesHold, OwnFiled, PeersFiled, ChainFiles;
    var empty := d.(trust := map[], modified := now);
    ImportIntoEmpty(empty, bundle, now);
    var own := ImportBundle(empty, bundle, false, now);
    assert own.trust == ChainFiles(bundle);
    PassOverOwn(own, bundle, remote, now);
    PassFixedPoint(PeerPass(own, remote, now), remote, now);
  }

  lemma ConfigureExact(bundle: seq<Certificate>, remote: seq<Certificate>, now: nat)
    requires bundle != []
    ensures var d := Configure(Wiped(now), bundle, remote, now);
            && d.trust.Values == Members(bundle) + Members(remote)
            && d.keystore == bundle
            && FilesHold(d.files, bundle)
            && d.modified == now
            && (forall a | a in d.files || a in d.trust :: a.Bundle? || a.ClusterTls?)
            && OwnFiled(d.trust, bundle) && PeersFiled(d.trust, remote)
  {
    var written := Wiped(now).(files := Wiped(now).files + ChainFiles(bundle), keystore := bundle);
    assert written.files == ChainFiles(bundle);
    assert FilesHold(written.files, bundle);
    assert forall a | a in written.files :: a.Bundle?;
    hide PeerPass, ImportBundle, FilesHold, OwnFiled, PeersFiled, ChainFiles;
    ImportIntoEmpty(written, bundle, now);
    var own := ImportBundle(written, bundle, false, now);
    assert own.trust == ChainFiles(bundle);
    PassOverOwn(own, bundle, remote, now);
  }

  /** What an import finds missing, alias by alias. */
  lemma MissingAt(t: Trust, files: Trust, bundle: seq<Certificate>, prior: bool, n: nat, a: Alias)
    requires n <= |bundle|
    ensures a in MissingFiles(files, bundle, prior, n) <==> a.i < n && a == BundleAlias(prior, a.i) && a !in files
    ensures a in MissingFiles(files, bundle, prior, n) ==> MissingFiles(files, bundle, prior, n)[a] == bundle[a.i]
    ensures a in MissingEntries(t, files, bundle, prior, n) <==> a.i < n && a == BundleAlias(prior, a.i) && a !in t
    ensures a in MissingEntries(t, files, bundle, prior, n) ==>
              MissingEntries(t, files, bundle, prior, n)[a] == if a in files then files[a] else bundle[a.i]
  {
  }

  lemma KeepExact(d: Disk, kept: seq<Certificate>, now: nat)
    requires forall i: nat :: OldBundle(i) !in d.files && OldBundle(i) !in d.trust
    ensures var r := ImportBundle(d, kept, true, now);
            && r.trust.Values == d.trust.Values + Members(kept)
            && (forall a: Alias | !a.OldBundle? :: (a in r.trust <==> a in d.trust) && (a in r.files <==> a in d.files))
            && (forall a | a in d.trust :: r.trust[a] == d.trust[a])
            && (forall a | a in d.files :: a in r.files && r.files[a] == d.files[a])
            && (forall i: nat | OldBundle(i) in r.trust :: i < |kept| && r.trust[OldBundle(i)] == kept[i])
            && r.keystore == d.keystore
            && (d.modified == now ==> r.modified == now)
  {
    hide MissingEntries, MissingFiles;
    var entries, files := MissingEntries(d.trust, d.files, kept, true, |kept|),
      MissingFiles(d.files, kept, true, |kept|);
    forall a: Alias
      ensures (a in entries <==> a.OldBundle? && a.i < |kept|) && (a in files <==> a.OldBundle? && a.i < |kept|)
      ensures a in entries ==> entries[a] == kept[a.i]
    {
      MissingAt(d.trust, d.files, kept, true, |kept|, a);
    }
    KeptValues(d.trust, entries, kept);
  }

  lemma KeptValues(t: Trust, entries: Trust, kept: seq<Certificate>)
    requires forall a: Alias ::
               (a in entries <==> a.OldBundle? && a.i < |kept|) && (a in entries ==> entries[a] == kept[a.i])
    requires forall i: nat :: OldBundle(i) !in t
    ensures (t + entries).Values == t.Values + Members(kept)
  {
    var r := t + entries;
    forall c | c in Members(kept) ensures c in r.Values {
      var i: nat :| i < |kept| && kept[i] == c;
      assert r[OldBundle(i)] == c;
    }
    forall c | c in t.Values ensures c in r.Values {
      var a :| a in t && t[a] == c;
      assert r[a] == c;
    }
  }

  /** A fresh installation trusts the own bundle, the peer-cluster bundle and the bundle kept from
      before, each under its own family of aliases. */
  lemma InstallExact(bundle: seq<Certificate>, remote: seq<Certificate>, kept: seq<Certificate>, now: nat)
    requires bundle != []
    ensures var d := Install(bundle, remote, kept, now);
            && d.trust.Values == Members(bundle) + Members(remote) + Members(kept)
            && d.keystore == bundle
            && FilesHold(d.files, bundle)
            && d.modified == now
            && OwnFiled(d.trust, bundle) && PeersFiled(d.trust, remote)
            && (forall i: nat :: NewClusterTls(i) !in d.trust)
            && (forall i: nat | OldBundle(i) in d.trust :: i < |kept| && d.trust[OldBundle(i)] == kept[i])
  {
    hide Configure, ImportBundle, FilesHold, OwnFiled, PeersFiled, Members;
    var d := Configure(Wiped(now), bundle, remote, now);
    ConfigureExact(bundle, remote, now);
    KeepExact(d, kept, now);
    KeptFiled(d, ImportBundle(d, kept, true, now), bundle, remote);
  }

  lemma KeptFiled(d: Disk, r: Disk, bundle: seq<Certificate>, remote: seq<Certificate>)
    requires forall a: Alias | !a.OldBundle? :: a in r.trust <==> a in d.trust
    requires forall a | a in d.trust :: a in r.trust && r.trust[a] == d.trust[a]
    requires forall a | a in d.files :: a in r.files && r.files[a] == d.files[a]
    ensures OwnFiled(d.trust, bundle) ==> OwnFiled(r.trust, bundle)
    ensures PeersFiled(d.trust, remote) ==> PeersFiled(r.trust, remote)
    ensures FilesHold(d.files, bundle) ==> FilesHold(r.files, bundle)
  {
  }

  /** The same, as far as certificates and times go. */
  lemma InstallTrusts(bundle: seq<Certificate>, remote: seq<Certificate>, kept: seq<Certificate>, now: nat)
    requires bundle != []
    ensures var d := Install(bundle, remote, kept, now);
            && d.trust.Values == Members(bundle) + Members(remote) + Members(kept)
            && d.keystore == bundle && d.modified == now
  {
    hide Install, FilesHold, OwnFiled, PeersFiled, Members;
    InstallExact(bundle, remote, kept, now);
  }
}
