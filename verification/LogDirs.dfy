/** Whether a broker's storages are drained: the listing of log directories, parsed into a dictionary, and
    the check over it. */
module LogDirs {
  import opened Strings

  datatype Broker = Broker(id: nat, dirs: seq<seq<string>>)

  /** `broker id/number of the directory`. */
  function Key(id: nat, i: nat): string { Decimal(id) + "/" + Decimal(i) }

  type Assignment = map<string, seq<string>>

  function OfBroker(b: Broker, n: nat): Assignment
    requires n <= |b.dirs|
  {
    if n == 0 then map[] else OfBroker(b, n - 1)[Key(b.id, n - 1) := b.dirs[n - 1]]
  }

  function Parsed(brokers: seq<Broker>): Assignment
    decreases |brokers|
  {
    if brokers == [] then map[]
    else
      var n := |brokers| - 1;
      Parsed(brokers[..n]) + OfBroker(brokers[n], |brokers[n].dirs|)
  }

  method ParseLogDirs(brokers: seq<Broker>) returns (assignment: Assignment)
    ensures assignment == Parsed(brokers)
  {
    assignment := map[];
    for i := 0 to |brokers|
      invariant assignment == Parsed(brokers[..i])
    {
      var b := brokers[i];
      ghost var before := assignment;
      for j := 0 to |b.dirs|
        invariant assignment == before + OfBroker(b, j)
      {
        assert before + OfBroker(b, j + 1) == (before + OfBroker(b, j))[Key(b.id, j) := b.dirs[j]];
        assignment := assignment[Key(b.id, j) := b.dirs[j]];
      }
      assert brokers[..i + 1][..i] == brokers[..i];
    }
    assert brokers[..|brokers|] == brokers;
  }

  lemma KeyInjective(id: nat, i: nat, otherId: nat, j: nat)
    requires Key(id, i) == Key(otherId, j)
    ensures id == otherId && i == j
  {
    assert '/' !in Decimal(id) && '/' !in Decimal(otherId);
    IndexIn(Decimal(id), '/', Decimal(i));
    IndexIn(Decimal(otherId), '/', Decimal(j));
    assert Key(id, i)[..|Decimal(id)|] == Decimal(id) && Key(otherId, j)[..|Decimal(otherId)|] == Decimal(otherId);
    assert Key(id, i)[|Decimal(id)| + 1..] == Decimal(i) && Key(otherId, j)[|Decimal(otherId)| + 1..] == Decimal(j);
    DecimalInjective(id, otherId);
    DecimalInjective(i, j);
  }

  predicate DistinctIds(brokers: seq<Broker>) {
    forall i, j | 0 <= i < j < |brokers| :: brokers[i].id != brokers[j].id
  }

  predicate Listed(brokers: seq<Broker>, key: string, n: nat, i: nat) {
    n < |brokers| && i < |brokers[n].dirs| && key == Key(brokers[n].id, i)
  }

  lemma {:induction false} OfBrokerAt(b: Broker, n: nat, key: string)
    requires n <= |b.dirs|
    ensures key in OfBroker(b, n) <==> exists i: nat :: i < n && key == Key(b.id, i)
    ensures forall i: nat | i < n :: Key(b.id, i) in OfBroker(b, n) && OfBroker(b, n)[Key(b.id, i)] == b.dirs[i]
    ensures |OfBroker(b, n)| == n
    decreases n
  {
    if n > 0 {
      OfBrokerAt(b, n - 1, key);
      OfBrokerAt(b, n - 1, Key(b.id, n - 1));
      forall i: nat | i < n - 1 ensures Key(b.id, i) != Key(b.id, n - 1) {
        if Key(b.id, i) == Key(b.id, n - 1) { KeyInjective(b.id, i, b.id, n - 1); }
      }
    }
  }

  /** With distinct broker ids no directory overwrites another: the dictionary holds exactly the listed
      directories, each with its partitions. */
  lemma {:induction false} NothingOverwritten(brokers: seq<Broker>)
    requires DistinctIds(brokers)
    ensures forall key :: key in Parsed(brokers) <==> exists n: nat, i: nat :: Listed(brokers, key, n, i)
    ensures forall n: nat, i: nat | n < |brokers| && i < |brokers[n].dirs| ::
              Key(brokers[n].id, i) in Parsed(brokers) && Parsed(brokers)[Key(brokers[n].id, i)] == brokers[n].dirs[i]
    decreases |brokers|
  {
    hide Key, OfBroker, Listed;
    if brokers == [] {
      NothingListed();
    } else {
      var m := |brokers| - 1;
      var front, b := brokers[..m], brokers[m];
      NothingOverwritten(front);
      forall key ensures key in Parsed(brokers) <==> exists n: nat, i: nat :: Listed(brokers, key, n, i) {
        OfBrokerAt(b, |b.dirs|, key);
        ListedNext(brokers, key);
      }
      forall n: nat, i: nat | n < |brokers| && i < |brokers[n].dirs|
        ensures Key(brokers[n].id, i) in Parsed(brokers) && Parsed(brokers)[Key(brokers[n].id, i)] == brokers[n].dirs[i]
      {
        KeptApart(brokers, n, i);
      }
    }
  }

  lemma NothingListed()
    ensures forall key, n: nat, i: nat :: !Listed([], key, n, i)
  {
  }

  lemma ListedNext(brokers: seq<Broker>, key: string)
    requires brokers != []
    ensures var m := |brokers| - 1;
            (exists n: nat, i: nat :: Listed(brokers, key, n, i))
            <==> (exists n: nat, i: nat :: Listed(brokers[..m], key, n, i))
                 || exists i: nat :: i < |brokers[m].dirs| && key == Key(brokers[m].id, i)
  {
    hide Key;
    var m := |brokers| - 1;
    var front := brokers[..m];
    if i: nat :| i < |brokers[m].dirs| && key == Key(brokers[m].id, i) { assert Listed(brokers, key, m, i); }
    if n: nat, i: nat :| Listed(front, key, n, i) { assert Listed(brokers, key, n, i); }
    if n: nat, i: nat :| Listed(brokers, key, n, i) && n < m { assert Listed(front, key, n, i); }
  }

  /** The last broker's directories do not hide those of another. */
  lemma KeptApart(brokers: seq<Broker>, n: nat, i: nat)
    requires DistinctIds(brokers) && n < |brokers| && i < |brokers[n].dirs|
    requires n < |brokers| - 1 ==>
               var p, key := Parsed(brokers[..|brokers| - 1]), Key(brokers[n].id, i);
               key in p && p[key] == brokers[n].dirs[i]
    ensures Key(brokers[n].id, i) in Parsed(brokers) && Parsed(brokers)[Key(brokers[n].id, i)] == brokers[n].dirs[i]
  {
    hide Key, OfBroker;
    var b, key := brokers[|brokers| - 1], Key(brokers[n].id, i);
    OfBrokerAt(b, |b.dirs|, key);
    if j: nat :| n < |brokers| - 1 && j < |b.dirs| && key == Key(b.id, j) { KeyInjective(brokers[n].id, i, b.id, j); }
  }

  /** `all_storages_drained`: an empty listing is taken for a failure, and keys are matched by prefix. */
  predicate Drained(assignment: Assignment, id: nat) {
    assignment != map[] && forall key | key in assignment && StartsWith(key, Decimal(id)) :: assignment[key] == []
  }

  method AllStoragesDrained(assignment: Assignment, id: nat) returns (drained: bool)
    ensures drained == Drained(assignment, id)
  {
    if assignment == map[] { return false; }
    var keys := set k | k in assignment && StartsWith(k, Decimal(id));
    if keys == {} {
      assert forall k :: k in assignment && StartsWith(k, Decimal(id)) ==> k in keys;
      return true;
    }
    return !(exists k :: k in keys && assignment[k] != []);
  }

  lemma PrefixOfKey(id: nat, other: nat, i: nat)
    ensures StartsWith(Key(other, i), Decimal(id)) <==> StartsWith(Decimal(other), Decimal(id))
  {
    var d, e, k := Decimal(id), Decimal(other), Key(other, i);
    assert k[..|e|] == e && k[|e|] == '/';
    if StartsWith(k, d) {
      forall j: nat | j < |d| ensures k[j] != '/' {
        assert k[..|d|][j] == d[j] && d[j] in d;
      }
      assert k[..|d|] == e[..|d|];
    }
    if StartsWith(e, d) { assert k[..|d|] == e[..|d|]; }
  }

  predicate Empty(b: Broker) { forall i: nat | i < |b.dirs| :: b.dirs[i] == [] }

  /** Exactly what the answer says: the listing is not empty, and no broker whose id starts with these
      digits has a partition left. */
  lemma DrainedMeans(brokers: seq<Broker>, id: nat)
    requires DistinctIds(brokers)
    ensures Drained(Parsed(brokers), id)
            <==> (exists n: nat :: n < |brokers| && brokers[n].dirs != [])
                 && forall n: nat | n < |brokers| && StartsWith(Decimal(brokers[n].id), Decimal(id)) ::
                      Empty(brokers[n])
  {
    hide Key, Parsed, Decimal;
    var p := Parsed(brokers);
    NothingOverwritten(brokers);
    forall n: nat, i: nat ensures StartsWith(Key(n, i), Decimal(id)) <==> StartsWith(Decimal(n), Decimal(id)) {
      PrefixOfKey(id, n, i);
    }
    if n: nat :| n < |brokers| && brokers[n].dirs != [] {
      assert Key(brokers[n].id, 0) in p;
    }
    if key :| key in p {
      var n: nat, i: nat :| Listed(brokers, key, n, i);
      assert brokers[n].dirs != [];
    }
    if Drained(p, id) {
      forall n: nat | n < |brokers| && StartsWith(Decimal(brokers[n].id), Decimal(id)) ensures Empty(brokers[n]) {
        forall i: nat | i < |brokers[n].dirs| ensures brokers[n].dirs[i] == [] {
          assert p[Key(brokers[n].id, i)] == brokers[n].dirs[i];
        }
      }
    }
    if forall n: nat | n < |brokers| && StartsWith(Decimal(brokers[n].id), Decimal(id)) :: Empty(brokers[n]) {
      forall key | key in p && StartsWith(key, Decimal(id)) ensures p[key] == [] {
        var n: nat, i: nat :| Listed(brokers, key, n, i);
        assert p[Key(brokers[n].id, i)] == brokers[n].dirs[i];
      }
    }
  }

  /** Broker 1 is drained, and the answer is no because of broker 10. */
  lemma PrefixMisleads()
    ensures var brokers := [Broker(1, [[]]), Broker(10, [["topic-0"]])];
            DistinctIds(brokers) && Empty(brokers[0]) && !Drained(Parsed(brokers), 1)
  {
    var brokers := [Broker(1, [[]]), Broker(10, [["topic-0"]])];
    DrainedMeans(brokers, 1);
    assert Decimal(1) == "1" && Decimal(10) == "10";
    assert StartsWith(Decimal(brokers[1].id), Decimal(1));
    assert brokers[1].dirs[0] != [];
  }

  /** A yes is right: no partition is left on the broker. */
  lemma DrainedIsSound(brokers: seq<Broker>, id: nat, n: nat)
    requires DistinctIds(brokers) && Drained(Parsed(brokers), id) && n < |brokers| && brokers[n].id == id
    ensures Empty(brokers[n])
  {
    DrainedMeans(brokers, id);
    assert Decimal(id)[..|Decimal(id)|] == Decimal(id);
  }

  /** With ids of equally many digits, and directories listed, the answer is right both ways. */
  lemma DrainedIsExact(brokers: seq<Broker>, id: nat)
    requires DistinctIds(brokers) && exists n: nat :: n < |brokers| && brokers[n].dirs != []
    requires forall b | b in brokers :: |Decimal(b.id)| == |Decimal(id)|
    ensures Drained(Parsed(brokers), id) <==> forall b | b in brokers && b.id == id :: Empty(b)
  {
    DrainedMeans(brokers, id);
    hide Decimal, Parsed, Drained, Empty;
    forall b | b in brokers ensures StartsWith(Decimal(b.id), Decimal(id)) <==> b.id == id {
      assert Decimal(b.id)[..|Decimal(id)|] == Decimal(b.id);
      if StartsWith(Decimal(b.id), Decimal(id)) { DecimalInjective(b.id, id); }
    }
    if forall b | b in brokers && b.id == id :: Empty(b) {
      forall n: nat | n < |brokers| && StartsWith(Decimal(brokers[n].id), Decimal(id)) ensures Empty(brokers[n]) {
        assert brokers[n] in brokers;
      }
    }
    if forall n: nat | n < |brokers| && StartsWith(Decimal(brokers[n].id), Decimal(id)) :: Empty(brokers[n]) {
      forall b | b in brokers && b.id == id ensures Empty(b) {
        var n: nat :| n < |brokers| && brokers[n] == b;
      }
    }
  }
}
