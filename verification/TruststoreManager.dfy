/** The truststore operations as the unit runs them: keytool and file commands that change the stores in
    place, each proved against its specification on values. */
module TruststoreManager {
  import opened Truststore

  // ---- The loops, one certificate at a time, on values ----

  /** The store after the first `n` certificates of a pass over `d`. */
  function PassSoFar(d: Disk, bundle: seq<Certificate>, now: nat, n: nat): Disk
    requires n <= |bundle|
  {
    var entries := Placed(d.trust, bundle, n);
    if entries == map[] then d
    else d.(trust := d.trust + entries, files := d.files + entries, modified := now)
  }

  lemma PlacedAt(t: Trust, bundle: seq<Certificate>, n: nat, a: Alias)
    requires n <= |bundle|
    ensures a in Placed(t, bundle, n) <==> a.i < n && bundle[a.i] !in t.Values && a == PeerAlias(t, a.i)
    ensures a in Placed(t, bundle, n) ==> Placed(t, bundle, n)[a] == bundle[a.i]
  {
  }

  lemma PlacedNext(t: Trust, bundle: seq<Certificate>, n: nat)
    requires n < |bundle|
    ensures Placed(t, bundle, n + 1)
            == if bundle[n] in t.Values then Placed(t, bundle, n)
              else Placed(t, bundle, n)[PeerAlias(t, n) := bundle[n]]
  {
    hide Placed;
    var was, next := Placed(t, bundle, n), Placed(t, bundle, n + 1);
    var grown := if bundle[n] in t.Values then was else was[PeerAlias(t, n) := bundle[n]];
    forall a: Alias ensures (a in next <==> a in grown) && (a in next ==> next[a] == grown[a]) {
      PlacedAt(t, bundle, n, a);
      PlacedAt(t, bundle, n + 1, a);
    }
    assert next == grown;
  }

  lemma PassNext(d: Disk, bundle: seq<Certificate>, now: nat, n: nat)
    requires n < |bundle|
    ensures var was, a := PassSoFar(d, bundle, now, n), PeerAlias(d.trust, n);
            PassSoFar(d, bundle, now, n + 1)
            == if bundle[n] in d.trust.Values then was
               else was.(trust := was.trust[a := bundle[n]], files := was.files[a := bundle[n]], modified := now)
  {
    hide Placed, PeerAlias;
    PlacedNext(d.trust, bundle, n);
    Grown(d.trust, Placed(d.trust, bundle, n), PeerAlias(d.trust, n), bundle[n]);
    Grown(d.files, Placed(d.trust, bundle, n), PeerAlias(d.trust, n), bundle[n]);
    assert d.trust + map[] == d.trust && d.files + map[] == d.files;
  }

  lemma Grown(t: Trust, more: Trust, a: Alias, c: Certificate)
    ensures t + more[a := c] == (t + more)[a := c] && more[a := c] != map[]
  {
    assert a in more[a := c];
  }

  /** The store after the first `n` certificates of an import into `d`. */
  function ImportSoFar(d: Disk, bundle: seq<Certificate>, prior: bool, now: nat, n: nat): Disk
    requires n <= |bundle|
  {
    var entries := MissingEntries(d.trust, d.files, bundle, prior, n);
    d.(trust := d.trust + entries,
       files := d.files + MissingFiles(d.files, bundle, prior, n),
       modified := if entries == map[] then d.modified else now)
  }

  /** What one certificate of an import does: write the file if there is none, add the alias if there is none. */
  function ImportOne(d: Disk, a: Alias, cert: Certificate, now: nat): Disk {
    var files := if a in d.files then d.files else d.files[a := cert];
    if a in d.trust then d.(files := files)
    else d.(files := files, trust := d.trust[a := files[a]], modified := now)
  }

  lemma FilesNext(files: Trust, bundle: seq<Certificate>, prior: bool, n: nat)
    requires n < |bundle|
    ensures var a, was := BundleAlias(prior, n), files + MissingFiles(files, bundle, prior, n);
            && (a in was <==> a in files) && (a in files ==> was[a] == files[a])
            && files + MissingFiles(files, bundle, prior, n + 1) == if a in files then was else was[a := bundle[n]]
  {
    hide MissingFiles, MissingEntries;
    var a := BundleAlias(prior, n);
    var was, next := MissingFiles(files, bundle, prior, n), MissingFiles(files, bundle, prior, n + 1);
    var grown := if a in files then was else was[a := bundle[n]];
    forall x: Alias ensures (x in next <==> x in grown) && (x in next ==> next[x] == grown[x]) &&
      (x in was ==> x !in files) {
      MissingAt(files, files, bundle, prior, n, x);
      MissingAt(files, files, bundle, prior, n + 1, x);
    }
    MissingAt(files, files, bundle, prior, n, a);
    assert next == grown;
    Grown(files, was, a, bundle[n]);
  }

  lemma EntriesNext(t: Trust, files: Trust, bundle: seq<Certificate>, prior: bool, n: nat)
    requires n < |bundle|
    ensures var a, was, next := BundleAlias(prior, n), MissingEntries(t, files, bundle, prior, n),
            MissingEntries(t, files, bundle, prior, n + 1);
            && (a in t + was <==> a in t)
            && next == if a in t then was else was[a := if a in files then files[a] else bundle[n]]
  {
    hide MissingFiles, MissingEntries;
    var a := BundleAlias(prior, n);
    var was, next := MissingEntries(t, files, bundle, prior, n), MissingEntries(t, files, bundle, prior, n + 1);
    var grown := if a in t then was else was[a := if a in files then files[a] else bundle[n]];
    forall x: Alias ensures (x in next <==> x in grown) && (x in next ==> next[x] == grown[x]) {
      MissingAt(t, files, bundle, prior, n, x);
      MissingAt(t, files, bundle, prior, n + 1, x);
    }
    MissingAt(t, files, bundle, prior, n, a);
    assert next == grown;
  }

  lemma ImportNext(d: Disk, bundle: seq<Certificate>, prior: bool, now: nat, n: nat)
    requires n < |bundle|
    ensures ImportSoFar(d, bundle, prior, now, n + 1)
            == ImportOne(ImportSoFar(d, bundle, prior, now, n), BundleAlias(prior, n), bundle[n], now)
  {
    hide MissingFiles, MissingEntries, BundleAlias;
    var a, was := BundleAlias(prior, n), MissingEntries(d.trust, d.files, bundle, prior, n);
    var cert := if a in d.files then d.files[a] else bundle[n];
    Grown(d.trust, was, a, cert);
    FilesNext(d.files, bundle, prior, n);
    EntriesNext(d.trust, d.files, bundle, prior, n);
  }

  lemma ImportStart(d: Disk, bundle: seq<Certificate>, prior: bool, now: nat)
    ensures ImportSoFar(d, bundle, prior, now, 0) == d
    ensures ImportSoFar(d, bundle, prior, now, |bundle|) == ImportBundle(d, bundle, prior, now)
  {
  }

  lemma PassStart(d: Disk, bundle: seq<Certificate>, now: nat)
    ensures PassSoFar(d, bundle, now, 0) == d && PassSoFar(d, bundle, now, |bundle|) == PeerPass(d, bundle, now)
  {
  }

  lemma PassOfNone(d: Disk, now: nat)
    ensures PeerPass(d, [], now) == d
  {
  }

  lemma ChainStart(files: Trust, bundle: seq<Certificate>)
    ensures files + ChainFiles(bundle[..0]) == files && bundle[..|bundle|] == bundle
  {
  }

  lemma ChainNext(bundle: seq<Certificate>, n: nat)
    requires n < |bundle|
    ensures ChainFiles(bundle[..n + 1]) == ChainFiles(bundle[..n])[Bundle(n) := bundle[n]]
  {
  }

  /** The peer stores of one unit. */
  class TlsManager {
    var trust: Trust
    var files: Trust
    var keystore: seq<Certificate>
    var modified: nat

    ghost function Stores(): Disk reads this { Disk(trust, files, keystore, modified) }

    constructor ()
      ensures Stores() == Disk(map[], map[], [], 0)
    {
      trust, files, keystore, modified := map[], map[], [], 0;
    }

    /** `keytool -import` from the alias's file; an alias that already exists is kept. */
    method ImportCert(alias: Alias, now: nat)
      requires alias in files
      modifies this
      ensures Stores() == if alias in old(trust) then old(Stores())
                          else old(Stores()).(trust := old(trust)[alias := old(files)[alias]], modified := now)
    {
      if alias in trust { return; }
      trust := trust[alias := files[alias]];
      modified := now;
    }

    /** `keytool -delete`, and the file goes with the entry. */
    method RemoveCert(alias: Alias, now: nat)
      modifies this
      ensures Stores() == if alias !in old(trust) then old(Stores())
                          else old(Stores()).(trust := old(trust) - {alias}, files := old(files) - {alias},
                            modified := now)
    {
      if alias !in trust { return; }
      trust := trust - {alias};
      files := files - {alias};
      modified := now;
    }

    /** Replaces the entry, where `ImportCert` alone would have kept it. */
    method UpdateCert(alias: Alias, cert: Certificate, now: nat)
      modifies this
      ensures Stores() == old(Stores()).(trust := old(trust)[alias := cert], files := old(files)[alias := cert],
              modified := now)
    {
      RemoveCert(alias, now);
      files := files[alias := cert];
      ImportCert(alias, now);
      assert trust == old(trust)[alias := cert] && files == old(files)[alias := cert];
    }

    method ImportBundle(bundle: seq<Certificate>, prior: bool, now: nat)
      modifies this
      ensures Stores() == Truststore.ImportBundle(old(Stores()), bundle, prior, now)
    {
      ghost var d := Stores();
      ImportStart(d, bundle, prior, now);
      hide ImportSoFar, BundleAlias, Truststore.ImportBundle;
      for i := 0 to |bundle|
        invariant Stores() == ImportSoFar(d, bundle, prior, now, i)
      {
        ImportNext(d, bundle, prior, now, i);
        var alias := BundleAlias(prior, i);
        if alias !in files {
          files := files[alias := bundle[i]];
        }
        ImportCert(alias, now);
      }
    }

    /** The set of trusted certificates is read once, before the loop changes the store. */
    method UpdatePeerClusterTrust(bundle: seq<Certificate>, now: nat)
      modifies this
      ensures Stores() == PeerPass(old(Stores()), bundle, now)
    {
      ghost var d := Stores();
      if bundle == [] { PassOfNone(d, now); return; }
      var trusted := trust;
      PassStart(d, bundle, now);
      hide PassSoFar, PeerPass;
      for i := 0 to |bundle|
        invariant Stores() == PassSoFar(d, bundle, now, i)
      {
        PassNext(d, bundle, now, i);
        if bundle[i] !in trusted.Values {
          var alias := ClusterTls(i);
          if alias in trusted { alias := NewClusterTls(i); }
          UpdateCert(alias, bundle[i], now);
        }
      }
    }

    /** One file for each certificate of the bundle, whether it is there already or not. */
    method SetChain(bundle: seq<Certificate>)
      modifies this
      ensures Stores() == old(Stores()).(files := old(files) + ChainFiles(bundle))
    {
      ghost var d := Stores();
      ChainStart(d.files, bundle);
      hide ChainFiles;
      for i := 0 to |bundle|
        invariant Stores() == d.(files := d.files + ChainFiles(bundle[..i]))
      {
        ChainNext(bundle, i);
        Grown(d.files, ChainFiles(bundle[..i]), Bundle(i), bundle[i]);
        files := files[Bundle(i) := bundle[i]];
      }
    }

    /** The keystore is exported from the bundle file that `set_bundle` writes. */
    method Configure(bundle: seq<Certificate>, remote: seq<Certificate>, now: nat)
      modifies this
      ensures Stores() == Truststore.Configure(old(Stores()), bundle, remote, now)
    {
      SetChain(bundle);
      assert bundle == [] ==> files == old(files);
      ImportBundle(bundle, false, now);
      if bundle != [] { keystore := bundle; }
      UpdatePeerClusterTrust(remote, now);
    }

    method RemoveStores(now: nat)
      modifies this
      ensures Stores() == Wiped(now)
    {
      trust, files, keystore, modified := map[], map[], [], now;
    }

    /** What both certificate events do to the stores. */
    method Reinstall(bundle: seq<Certificate>, remote: seq<Certificate>, kept: seq<Certificate>, now: nat)
      modifies this
      ensures Stores() == Install(bundle, remote, kept, now)
    {
      RemoveStores(now);
      Configure(bundle, remote, now);
      ImportBundle(kept, true, now);
    }

    method RebuildTruststore(bundle: seq<Certificate>, remote: seq<Certificate>, now: nat)
      modifies this
      ensures Stores() == Rebuild(old(Stores()), bundle, remote, now)
    {
      trust, modified := map[], now;
      ImportBundle(bundle, false, now);
      UpdatePeerClusterTrust(remote, now);
    }

    method HasTemporaryAliases() returns (r: bool)
      ensures r == HasTemporary(trust)
    {
      var left := trust.Keys;
      while left != {}
        invariant left <= trust.Keys
        invariant forall a | a in trust && a !in left :: !a.Temporary()
        decreases left
      {
        var a :| a in left;
        if a.OldBundle? || a.NewClusterTls? { return true; }
        left := left - {a};
      }
      return false;
    }
  }
}
