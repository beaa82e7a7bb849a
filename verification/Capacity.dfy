/** The snapshot of broker capacities that the leader keeps for the balancer. */
module Capacity {

  /** What a broker reports of itself; a report without cores or storages is not complete. */
  datatype Report = Report(id: nat, cores: string, storages: string)

  datatype Entry = Entry(cores: string, storages: string)

  type Snapshot = map<nat, Entry>

  predicate Complete(r: Report) { r.cores != "" && r.storages != "" }

  /** The last complete report of a broker in the list. */
  function Latest(reports: seq<Report>, id: nat): (r: set<Entry>)
    ensures |r| <= 1
    decreases |reports|
  {
    if reports == [] then {}
    else
      var r := reports[|reports| - 1];
      if r.id == id && Complete(r) then {Entry(r.cores, r.storages)} else Latest(reports[..|reports| - 1], id)
  }

  class KafkaCluster {
    var snapshot: Snapshot

    constructor (snapshot: Snapshot)
      ensures this.snapshot == snapshot
    {
      this.snapshot := snapshot;
    }

    method AddBroker(r: Report)
      modifies this
      ensures snapshot == if Complete(r) then old(snapshot)[r.id := Entry(r.cores, r.storages)] else old(snapshot)
    {
      if r.cores == "" || r.storages == "" { return; }
      var updated := Entry(r.cores, r.storages);
      if r.id in snapshot && snapshot[r.id] == updated {
        assert snapshot == snapshot[r.id := updated];
        return;
      }
      snapshot := snapshot[r.id := updated];
    }

    method RemoveBroker(id: nat)
      modifies this
      ensures snapshot == old(snapshot) - {id}
    {
      if id !in snapshot { return; }
      snapshot := snapshot - {id};
    }

    /** A leader's pass: enter all brokers, then drop the entries of brokers that are neither online nor on
        the relation. */
    method UpdateBrokersState(reports: seq<Report>, online: set<nat>, related: set<nat>)
      modifies this
      ensures Passed(old(snapshot), reports, online, related, snapshot)
    {
      for i := 0 to |reports|
        invariant Entered(old(snapshot), reports[..i], snapshot)
      {
        assert reports[..i + 1][..i] == reports[..i];
        AddBroker(reports[i]);
      }
      assert reports[..|reports|] == reports;
      ghost var full := snapshot;
      var removed := snapshot.Keys - online;
      while removed != {}
        invariant removed <= full.Keys - online
        invariant forall id :: id in snapshot <==> id in full && (id in online || id in related || id in removed)
        invariant forall id | id in snapshot :: snapshot[id] == full[id]
        decreases removed
      {
        var id :| id in removed;
        if id !in related { RemoveBroker(id); }
        removed := removed - {id};
      }
    }
  }

  /** Complete reports replace entries, and the other entries stay. */
  ghost predicate Entered(was: Snapshot, reports: seq<Report>, now: Snapshot) {
    && (forall id :: id in now <==> id in was || Latest(reports, id) != {})
    && (forall id | id in now :: Latest(reports, id) == {now[id]} || (Latest(reports, id) == {} && now[id] == was[id]))
  }

  /** What a pass does: the keys are exactly the old or newly reported brokers that are online or on the
      relation, with their last complete report. */
  ghost predicate Passed(was: Snapshot, reports: seq<Report>, online: set<nat>, related: set<nat>, now: Snapshot) {
    && (forall id :: id in now <==> (id in was || Latest(reports, id) != {}) && (id in online || id in related))
    && (forall id | id in now :: Latest(reports, id) == {now[id]} || (Latest(reports, id) == {} && now[id] == was[id]))
  }

  lemma LatestNext(reports: seq<Report>, r: Report, id: nat)
    ensures Latest(reports + [r], id)
            == if r.id == id && Complete(r) then {Entry(r.cores, r.storages)} else Latest(reports, id)
  {
    assert (reports + [r])[..|reports|] == reports;
  }

  /** A report without cores or without storages changes nothing, wherever it stands among the others. */
  lemma {:induction false} IncompleteIgnored(front: seq<Report>, r: Report, back: seq<Report>, id: nat)
    requires r.cores == "" || r.storages == ""
    ensures Latest(front + [r] + back, id) == Latest(front + back, id)
    decreases |back|
  {
    hide Latest;
    if back == [] {
      LatestNext(front, r, id);
      assert front + [r] + back == front + [r] && front + back == front;
    } else {
      var m := |back| - 1;
      var rest, last := back[..m], back[m];
      IncompleteIgnored(front, r, rest, id);
      LatestNext(front + [r] + rest, last, id);
      LatestNext(front + rest, last, id);
      assert back == rest + [last];
      assert front + [r] + back == front + [r] + rest + [last] && front + back == front + rest + [last];
    }
  }

  /** And a report with both is the one that counts, if it is the broker's last. */
  lemma {:induction false} CompleteCounts(reports: seq<Report>, i: nat)
    requires i < |reports| && reports[i].cores != "" && reports[i].storages != ""
    requires forall j: nat | i < j < |reports| :: reports[j].id != reports[i].id
    ensures Latest(reports, reports[i].id) == {Entry(reports[i].cores, reports[i].storages)}
    decreases |reports|
  {
    var n := |reports| - 1;
    if i < n { CompleteCounts(reports[..n], i); }
  }

  datatype Pass = Pass(reports: seq<Report>, online: set<nat>, related: set<nat>)

  ghost predicate History(snapshots: seq<Snapshot>, passes: seq<Pass>) {
    && |snapshots| == |passes| + 1
    && forall i: nat | i < |passes| ::
         Passed(snapshots[i], passes[i].reports, passes[i].online, passes[i].related, snapshots[i + 1])
  }

  /** A pass takes the entry of a broker that it finds neither online nor on the relation. */
  lemma EntryLost(snapshots: seq<Snapshot>, passes: seq<Pass>, i: nat, id: nat)
    requires History(snapshots, passes) && i < |passes| && id in snapshots[i]
    ensures id !in snapshots[i + 1] <==> id !in passes[i].online && id !in passes[i].related
  {
    assert Passed(snapshots[i], passes[i].reports, passes[i].online, passes[i].related, snapshots[i + 1]);
  }

  /** A broker with an entry keeps it without a gap if and only if each pass finds it online or on the
      relation. */
  lemma {:induction false} EntryStays(snapshots: seq<Snapshot>, passes: seq<Pass>, i: nat, j: nat, id: nat)
    requires History(snapshots, passes) && i <= j < |snapshots| && id in snapshots[i]
    ensures (forall k: nat | i <= k <= j :: id in snapshots[k])
            <==> forall k: nat | i <= k < j :: id in passes[k].online || id in passes[k].related
    decreases j - i
  {
    hide History;
    HistorySize(snapshots, passes);
    if i < j {
      EntryStays(snapshots, passes, i, j - 1, id);
      if id in snapshots[j - 1] { EntryLost(snapshots, passes, j - 1, id); }
    }
  }

  lemma HistorySize(snapshots: seq<Snapshot>, passes: seq<Pass>)
    requires History(snapshots, passes)
    ensures |snapshots| == |passes| + 1
  {
  }

  /** Since pass `k` no pass up to `j` has brought a complete report of the broker. */
  predicate SilentSince(passes: seq<Pass>, k: nat, j: nat, id: nat)
    requires j <= |passes|
  {
    forall m: nat | k < m < j :: Latest(passes[m].reports, id) == {}
  }

  /** An entry is always the broker's last complete report, or the one it had at the start. */
  lemma {:induction false} EntryIsLastReport(snapshots: seq<Snapshot>, passes: seq<Pass>, j: nat, id: nat)
    requires History(snapshots, passes) && j < |snapshots| && id in snapshots[j]
    ensures (exists k: nat ::
              k < j && Latest(passes[k].reports, id) == {snapshots[j][id]} && SilentSince(passes, k, j, id))
            || (id in snapshots[0] && snapshots[j][id] == snapshots[0][id] &&
               forall m: nat | m < j :: Latest(passes[m].reports, id) == {})
    decreases j
  {
    if j > 0 {
      var p := passes[j - 1];
      assert Passed(snapshots[j - 1], p.reports, p.online, p.related, snapshots[j - 1 + 1]);
      if Latest(p.reports, id) == {snapshots[j][id]} {
        assert SilentSince(passes, j - 1, j, id);
      } else {
        EntryIsLastReport(snapshots, passes, j - 1, id);
        if k: nat :|
            k < j - 1 && Latest(passes[k].reports, id) == {snapshots[j - 1][id]} && SilentSince(passes, k, j - 1, id) {
          assert SilentSince(passes, k, j, id);
        }
      }
    }
  }
}
