/** The events a provider emits for its requirers' requests: each request is compared with the snapshot
    stored at the last event, checked, stored and turned into at most one event (version 1 of the data
    interfaces). */
module RequestEvents {

  type Fields = map<string, string>

  // ---- Comparing snapshots ----

  datatype Diff = Diff(added: set<string>, changed: set<string>, deleted: set<string>)

  function Compare(was: Fields, now: Fields): Diff {
    Diff(now.Keys - was.Keys, (set f | f in was && f in now && was[f] != now[f]), was.Keys - now.Keys)
  }

  /** The diff and the new values of the fields it names are enough to get from the old data to the new. */
  lemma DiffPatches(was: Fields, now: Fields)
    ensures var d := Compare(was, now);
            now == (was - d.deleted) + map f | f in now && f in d.added + d.changed :: now[f]
  {
    var d := Compare(was, now);
    var patched := (was - d.deleted) + map f | f in now && f in d.added + d.changed :: now[f];
    assert patched.Keys == now.Keys;
  }

  lemma SameMeansEmpty(was: Fields, now: Fields)
    ensures Compare(was, now) == Diff({}, {}, {}) <==> was == now
  {
    if Compare(was, now) == Diff({}, {}, {}) {
      assert Compare(was, now).added == {} && Compare(was, now).deleted == {};
      assert was.Keys == now.Keys;
      forall f | f in was ensures was[f] == now[f] {
        assert f !in Compare(was, now).changed;
      }
    }
  }

  // ---- Events ----

  datatype Event =
    | MtlsCertUpdated(id: string)
    | ResourceRequested(id: string)
    | ResourceEntityRequested(id: string)
    | PermissionsChanged(id: string)

  /** A request of version 1 has an id. */
  type RequestId = id: string | id != "" witness "0"

  datatype Request = Request(id: RequestId, fields: Fields)

  const ResourceNames := {"resource", "database", "subject", "topic", "index", "plugin-url", "prefix"}

  const Unchangeable := {"resource", "entity-type", "entity-permissions", "extra-user-roles", "extra-group-roles"}

  predicate ResourceAdded(d: Diff) { d.added * ResourceNames != {} }

  /** A client certificate comes first, and alone; then a new resource; then changed permissions. */
  function Dispatch(mtls: bool, d: Diff, id: string): seq<Event> {
    if mtls && "secret-mtls" in d.added then [MtlsCertUpdated(id)]
    else if ResourceAdded(d) then
      (if "entity-type" in d.added then [ResourceEntityRequested(id)] else [ResourceRequested(id)])
    else if "entity-type" !in d.added && ("entity-permissions" in d.added || "entity-permissions" in d.changed)
    then [PermissionsChanged(id)]
    else []
  }

  type Snapshots = map<string, Fields>

  function Snapshot(data: Snapshots, id: string): Fields { if id in data then data[id] else map[] }

  /** The check that stops the hook: these must not change once they are there. */
  predicate Accepts(d: Diff) { d.changed * Unchangeable == {} }

  datatype Outcome = Outcome(ok: bool, data: Snapshots, events: seq<Event>)

  /** The requests of one event, in order; the first refused one ends the hook. */
  function HandleAll(mtls: bool, data: Snapshots, requests: seq<Request>): Outcome
    decreases |requests|
  {
    if requests == [] then Outcome(true, data, [])
    else
      var before := HandleAll(mtls, data, requests[..|requests| - 1]);
      var r := requests[|requests| - 1];
      var d := Compare(Snapshot(before.data, r.id), r.fields);
      if !before.ok then before
      else
        var stored := before.data[r.id := r.fields];
        if !Accepts(d) then Outcome(false, stored, before.events)
        else Outcome(true, stored, before.events + Dispatch(mtls, d, r.id))
  }

  class ResourceProviderEventHandler {
    const mtlsEnabled: bool
    var data: Snapshots

    constructor (mtlsEnabled: bool, data: Snapshots)
      ensures this.mtlsEnabled == mtlsEnabled && this.data == data
    {
      this.mtlsEnabled, this.data := mtlsEnabled, data;
    }

    /** Computes the diff and stores the new snapshot. */
    method ComputeDiff(r: Request) returns (d: Diff)
      modifies this
      ensures d == Compare(Snapshot(old(data), r.id), r.fields) && data == old(data)[r.id := r.fields]
    {
      d := Compare(if r.id in data then data[r.id] else map[], r.fields);
      data := data[r.id := r.fields];
    }

    /** One hook; a refused request is an exception, and what the hook has stored is rolled back. */
    method OnRelationChanged(requests: seq<Request>) returns (ok: bool, events: seq<Event>)
      modifies this
      ensures var o := HandleAll(mtlsEnabled, old(data), requests);
              ok == o.ok && events == o.events && data == if ok then o.data else old(data)
    {
      var saved := data;
      ok, events := true, [];
      for i := 0 to |requests|
        invariant ok && HandleAll(mtlsEnabled, saved, requests[..i]) == Outcome(true, data, events)
      {
        assert requests[..i + 1][..i] == requests[..i];
        var d := ComputeDiff(requests[i]);
        if d.changed * Unchangeable != {} {
          ok := false;
          RefusedStays(mtlsEnabled, saved, requests, i + 1);
          data := saved;
          return;
        }
        events := events + Dispatch(mtlsEnabled, d, requests[i].id);
      }
      assert requests[..|requests|] == requests;
    }
  }

  lemma {:induction false} RefusedStays(mtls: bool, data: Snapshots, requests: seq<Request>, n: nat)
    requires n <= |requests| && !HandleAll(mtls, data, requests[..n]).ok
    ensures HandleAll(mtls, data, requests) == HandleAll(mtls, data, requests[..n])
    decreases |requests| - n
  {
    if n == |requests| {
      assert requests[..n] == requests;
    } else {
      assert requests[..n + 1][..n] == requests[..n];
      RefusedStays(mtls, data, requests, n + 1);
    }
  }

  // ---- Unchanged requests, and other requests' snapshots ----

  /** Handling a request leaves the snapshots of all others alone. */
  lemma {:induction false} OthersUntouched(mtls: bool, data: Snapshots, requests: seq<Request>, id: string)
    requires forall r | r in requests :: r.id != id
    ensures var o := HandleAll(mtls, data, requests);
            (id in o.data <==> id in data) && (id in data ==> o.data[id] == data[id])
    ensures forall e | e in HandleAll(mtls, data, requests).events :: e.id != id
    decreases |requests|
  {
    if requests != [] {
      var n := |requests| - 1;
      assert requests[n] in requests;
      OthersUntouched(mtls, data, requests[..n], id);
    }
  }

  /** Requests that stand as they were stored cause no event, no refusal and no change. */
  lemma {:induction false} UnchangedIsQuiet(mtls: bool, data: Snapshots, requests: seq<Request>)
    requires forall r | r in requests :: r.id in data && data[r.id] == r.fields
    ensures HandleAll(mtls, data, requests) == Outcome(true, data, [])
    decreases |requests|
  {
    if requests != [] {
      var n := |requests| - 1;
      var r := requests[n];
      assert r in requests;
      UnchangedIsQuiet(mtls, data, requests[..n]);
      SameMeansEmpty(r.fields, r.fields);
      assert data[r.id := r.fields] == data;
    }
  }

  predicate DistinctIds(requests: seq<Request>) {
    forall i, j | 0 <= i < j < |requests| :: requests[i].id != requests[j].id
  }

  lemma {:induction false} Stores(mtls: bool, data: Snapshots, requests: seq<Request>, r: Request)
    requires DistinctIds(requests) && r in requests && HandleAll(mtls, data, requests).ok
    ensures r.id in HandleAll(mtls, data, requests).data && HandleAll(mtls, data, requests).data[r.id] == r.fields
    decreases |requests|
  {
    var n := |requests| - 1;
    if r != requests[n] {
      assert r in requests[..n];
      Stores(mtls, data, requests[..n], r);
      var i :| 0 <= i < n && requests[i] == r;
      assert requests[i].id != requests[n].id;
    }
  }

  /** Handling the same requests again is quiet. */
  lemma AgainIsQuiet(mtls: bool, data: Snapshots, requests: seq<Request>)
    requires DistinctIds(requests) && HandleAll(mtls, data, requests).ok
    ensures var o := HandleAll(mtls, data, requests); HandleAll(mtls, o.data, requests) == Outcome(true, o.data, [])
  {
    forall r | r in requests ensures r.id in HandleAll(mtls, data, requests).data &&
      HandleAll(mtls, data, requests).data[r.id] == r.fields {
      Stores(mtls, data, requests, r);
    }
    UnchangedIsQuiet(mtls, HandleAll(mtls, data, requests).data, requests);
  }

  // ---- Which event a request causes ----

  /** The field is in the request and not in its snapshot. */
  predicate New(data: Snapshots, r: Request, field: string) {
    field in r.fields && !(r.id in data && field in data[r.id])
  }

  predicate Altered(data: Snapshots, r: Request, field: string) {
    r.id in data && field in data[r.id] && field in r.fields && data[r.id][field] != r.fields[field]
  }

  /** The fields by which a request names what it wants. */
  predicate NamesNew(data: Snapshots, r: Request) {
    || New(data, r, "resource") || New(data, r, "database") || New(data, r, "subject") || New(data, r, "topic")
    || New(data, r, "index") || New(data, r, "plugin-url") || New(data, r, "prefix")
  }

  /** The fields that are fixed once they are there. */
  predicate Breaches(data: Snapshots, r: Request) {
    || Altered(data, r, "resource") || Altered(data, r, "entity-type") || Altered(data, r, "entity-permissions")
    || Altered(data, r, "extra-user-roles") || Altered(data, r, "extra-group-roles")
  }

  /** Exactly which event a request causes: none if it alters what is fixed; else one for a new client
      certificate, where these are enabled; else one for a new resource, of the kind that a new entity type
      decides; else one for new permissions, but not together with a new entity type.  Permissions that are
      altered cause none: they are refused. */
  lemma EventsExactly(mtls: bool, data: Snapshots, r: Request)
    ensures HandleAll(mtls, data, [r]).ok <==> !Breaches(data, r)
    ensures HandleAll(mtls, data, [r]).events
            == if Breaches(data, r) then []
               else if mtls && New(data, r, "secret-mtls") then [MtlsCertUpdated(r.id)]
               else if NamesNew(data, r) && New(data, r, "entity-type") then [ResourceEntityRequested(r.id)]
               else if NamesNew(data, r) then [ResourceRequested(r.id)]
               else if New(data, r, "entity-permissions") && !New(data, r, "entity-type") then
                 [PermissionsChanged(r.id)]
               else []
  {
    assert [r][..0] == [];
    var d := Compare(Snapshot(data, r.id), r.fields);
    forall f ensures f in d.added <==> New(data, r, f) { }
    forall f ensures f in d.changed <==> Altered(data, r, f) { }
    DispatchParts(data, r, d);
    var events := Dispatch(mtls, d, r.id);
    assert [] + events == events;
  }

  lemma DispatchParts(data: Snapshots, r: Request, d: Diff)
    requires forall f :: f in d.added <==> New(data, r, f)
    requires forall f :: f in d.changed <==> Altered(data, r, f)
    ensures ResourceAdded(d) <==> NamesNew(data, r)
    ensures Accepts(d) <==> !Breaches(data, r)
  {
    hide New, Altered;
    if f :| f in d.added * ResourceNames { assert New(data, r, f); }
    if f :| f in ResourceNames && New(data, r, f) { assert f in d.added * ResourceNames; }
    if f :| f in d.changed * Unchangeable { assert Altered(data, r, f); }
    if f :| f in Unchangeable && Altered(data, r, f) { assert f in d.changed * Unchangeable; }
  }

  /** And the requests of one hook, with ids of their own, each cause theirs in turn. */
  lemma EventsApart(mtls: bool, data: Snapshots, rs: seq<Request>, r: Request)
    requires DistinctIds(rs + [r]) && HandleAll(mtls, data, rs).ok
    ensures HandleAll(mtls, data, rs + [r]).ok == HandleAll(mtls, data, [r]).ok
    ensures HandleAll(mtls, data, rs + [r]).events
            == HandleAll(mtls, data, rs).events + HandleAll(mtls, data, [r]).events
  {
    hide Compare, Dispatch, Accepts;
    assert (rs + [r])[..|rs|] == rs && [r][..0] == [];
    forall x | x in rs ensures x.id != r.id {
      var i :| 0 <= i < |rs| && rs[i] == x;
      assert (rs + [r])[i] == x && (rs + [r])[|rs|] == r;
    }
    OthersUntouched(mtls, data, rs, r.id);
    assert Snapshot(HandleAll(mtls, data, rs).data, r.id) == Snapshot(data, r.id);
    var events := Dispatch(mtls, Compare(Snapshot(data, r.id), r.fields), r.id);
    assert [] + events == events;
    assert HandleAll(mtls, data, rs).events + [] == HandleAll(mtls, data, rs).events;
  }

  // ---- How often a resource is announced ----

  /** A sequence of hooks: what refused ones have stored is undone, what they have emitted is not. */
  function Hooks(mtls: bool, data: Snapshots, hooks: seq<seq<Request>>): Outcome
    decreases |hooks|
  {
    if hooks == [] then Outcome(true, data, [])
    else
      var before := Hooks(mtls, data, hooks[..|hooks| - 1]);
      var o := HandleAll(mtls, before.data, hooks[|hooks| - 1]);
      Outcome(true, if o.ok then o.data else before.data, before.events + o.events)
  }

  /** Announcements of the request's resource. */
  function Announcements(events: seq<Event>, id: string): nat {
    if events == [] then 0
    else (if events[0] == ResourceRequested(id) || events[0] == ResourceEntityRequested(id) then 1 else 0)
         + Announcements(events[1..], id)
  }

  lemma {:induction false} AnnouncementsAdd(a: seq<Event>, b: seq<Event>, id: string)
    ensures Announcements(a + b, id) == Announcements(a, id) + Announcements(b, id)
    decreases |a|
  {
    if a == [] {
      assert a + b == b;
    } else {
      assert (a + b)[1..] == a[1..] + b;
      AnnouncementsAdd(a[1..], b, id);
    }
  }

  /** The request never withdraws its resource, nor names another one: whenever it is seen, it carries
      the same resource fields. */
  predicate Keeps(fields: Fields, names: set<string>) { fields.Keys * ResourceNames == names }

  predicate KeepsIn(requests: seq<Request>, id: string, names: set<string>) {
    forall r | r in requests && r.id == id :: Keeps(r.fields, names)
  }

  /** The request brings a resource, and no client certificate that would come first. */
  predicate Announces(mtls: bool, fields: Fields) {
    fields.Keys * ResourceNames != {} && !(mtls && "secret-mtls" in fields)
  }

  lemma AnnounceOne(mtls: bool, d: Diff, id: string, other: string)
    ensures Announcements(Dispatch(mtls, d, id), other)
            == if id == other && ResourceAdded(d) && !(mtls && "secret-mtls" in d.added) then 1 else 0
  {
    var events := Dispatch(mtls, d, id);
    if events != [] { assert |events| == 1 && events[1..] == []; }
  }

  /** A request that is seen for the first time is accepted, and announced if it is to be. */
  lemma AnnounceFirst(mtls: bool, fields: Fields, id: string)
    ensures var d := Compare(map[], fields);
            Accepts(d) && Announcements(Dispatch(mtls, d, id), id) == if Announces(mtls, fields) then 1 else 0
  {
    var d := Compare(map[], fields);
    assert d.added == fields.Keys && d.changed == {};
    AnnounceOne(mtls, d, id, id);
  }

  /** Requests that keep their resource are not announced again. */
  lemma KnownIsSilent(mtls: bool, was: Fields, now: Fields, id: string, names: set<string>)
    requires Keeps(was, names) && Keeps(now, names)
    ensures Announcements(Dispatch(mtls, Compare(was, now), id), id) == 0
  {
    var d := Compare(was, now);
    forall f | f in d.added ensures f !in ResourceNames {
      assert f in was.Keys * ResourceNames <==> f in now.Keys * ResourceNames;
    }
    assert !ResourceAdded(d);
    AnnounceOne(mtls, d, id, id);
  }

  /** The hook gets to request `k`, the first one with the id, without having been refused. */
  predicate Handles(mtls: bool, data: Snapshots, requests: seq<Request>, id: string, k: nat) {
    && k < |requests| && requests[k].id == id && (forall j | 0 <= j < k :: requests[j].id != id)
    && HandleAll(mtls, data, requests[..k]).ok
  }

  /** The hook handles a request that has no snapshot yet and is to be announced. */
  ghost predicate Emits(mtls: bool, data: Snapshots, requests: seq<Request>, id: string) {
    id !in data && exists k: nat :: Handles(mtls, data, requests, id, k) && Announces(mtls, requests[k].fields)
  }

  /** While the hook is not refused, it has stored a snapshot for each request it has seen. */
  lemma {:induction false} HandledIsStored(
      mtls: bool, data: Snapshots, requests: seq<Request>, id: string, names: set<string>)
    requires KeepsIn(requests, id, names) && (id in data ==> Keeps(data[id], names))
    ensures var o := HandleAll(mtls, data, requests);
            && (id in o.data ==> Keeps(o.data[id], names)) && (id in data ==> id in o.data)
            && (o.ok ==> (id in o.data <==> id in data || exists r :: r in requests && r.id == id))
    decreases |requests|
  {
    if requests != [] {
      var n := |requests| - 1;
      assert requests[n] in requests && requests == requests[..n] + [requests[n]];
      HandledIsStored(mtls, data, requests[..n], id, names);
    }
  }

  lemma EmitsPrefix(mtls: bool, data: Snapshots, requests: seq<Request>, id: string, n: nat)
    requires n == |requests| - 1
    ensures Emits(mtls, data, requests, id) <==>
              || Emits(mtls, data, requests[..n], id)
              || (id !in data && Handles(mtls, data, requests, id, n) && Announces(mtls, requests[n].fields))
  {
    hide HandleAll, Announces, Handles;
    forall k: nat | k < |requests|
      ensures k < n ==> (Handles(mtls, data, requests, id, k) <==> Handles(mtls, data, requests[..n], id, k))
      ensures k < n ==> requests[..n][k] == requests[k]
    {
      if k < n { HandlesPrefix(mtls, data, requests, id, n, k); }
    }
    forall k: nat
      ensures Handles(mtls, data, requests, id, k) ==> k < |requests|
      ensures Handles(mtls, data, requests[..n], id, k) ==> k < n
    {
      HandlesWithin(mtls, data, requests, id, k);
      HandlesWithin(mtls, data, requests[..n], id, k);
    }
  }

  lemma HandlesWithin(mtls: bool, data: Snapshots, requests: seq<Request>, id: string, k: nat)
    ensures Handles(mtls, data, requests, id, k) ==> k < |requests|
  {
  }

  lemma HandlesPrefix(mtls: bool, data: Snapshots, requests: seq<Request>, id: string, n: nat, k: nat)
    requires k < n <= |requests|
    ensures Handles(mtls, data, requests, id, k) <==> Handles(mtls, data, requests[..n], id, k)
  {
    hide HandleAll;
    assert requests[..n][..k] == requests[..k];
  }

  /** What one hook announces, refused or not: the first request with the id that it gets to, if there is no
      snapshot of it. */
  lemma {:induction false} HookAnnounces(
      mtls: bool, data: Snapshots, requests: seq<Request>, id: string, names: set<string>)
    requires KeepsIn(requests, id, names) && (id in data ==> Keeps(data[id], names))
    ensures Announcements(HandleAll(mtls, data, requests).events, id)
            == if Emits(mtls, data, requests, id) then 1 else 0
    decreases |requests|
  {
    hide Compare, Accepts, Dispatch, Announces, Emits, Keeps;
    if requests == [] {
      assert !Emits(mtls, data, requests, id) by { NothingEmitted(mtls, data, id); }
    } else {
      var n := |requests| - 1;
      var r, before := requests[n], HandleAll(mtls, data, requests[..n]);
      assert r in requests;
      HookAnnounces(mtls, data, requests[..n], id, names);
      HandledIsStored(mtls, data, requests[..n], id, names);
      EmitsPrefix(mtls, data, requests, id, n);
      if before.ok {
        var d := Compare(Snapshot(before.data, r.id), r.fields);
        AnnouncementsAdd(before.events, Dispatch(mtls, d, r.id), id);
        AnnouncementsAdd(before.events, [], id);
        assert before.events + [] == before.events;
        if r.id != id {
          AnnounceOne(mtls, d, r.id, id);
        } else if id in before.data {
          KnownIsSilent(mtls, before.data[id], r.fields, id, names);
          if id !in data { SeenBefore(mtls, data, requests, id, n); }
        } else {
          AnnounceFirst(mtls, r.fields, id);
          FirstSeen(mtls, data, requests, id, n);
        }
      }
    }
  }

  lemma NothingEmitted(mtls: bool, data: Snapshots, id: string)
    ensures !Emits(mtls, data, [], id)
  {
  }

  lemma SeenBefore(mtls: bool, data: Snapshots, requests: seq<Request>, id: string, n: nat)
    requires n == |requests| - 1 && exists r :: r in requests[..n] && r.id == id
    ensures !Handles(mtls, data, requests, id, n)
  {
    var r :| r in requests[..n] && r.id == id;
    var j :| 0 <= j < n && requests[j] == r;
  }

  lemma FirstSeen(mtls: bool, data: Snapshots, requests: seq<Request>, id: string, n: nat)
    requires n == |requests| - 1 && requests[n].id == id && HandleAll(mtls, data, requests[..n]).ok
    requires forall r | r in requests[..n] :: r.id != id
    ensures Handles(mtls, data, requests, id, n) && !Emits(mtls, data, requests[..n], id)
  {
    forall j | 0 <= j < n ensures requests[j].id != id { assert requests[j] in requests[..n]; }
    forall k: nat ensures !Handles(mtls, data, requests[..n], id, k) {
      if k < n { assert requests[..n][k] in requests[..n]; }
    }
  }

  /** The refused hooks that had announced the request, before any hook stored its snapshot. */
  ghost function Repeats(mtls: bool, data: Snapshots, hooks: seq<seq<Request>>, id: string): nat
    decreases |hooks|
  {
    if hooks == [] then 0
    else
      var n := |hooks| - 1;
      var before := Hooks(mtls, data, hooks[..n]).data;
      var wasted := Emits(mtls, before, hooks[n], id) && !HandleAll(mtls, before, hooks[n]).ok;
      Repeats(mtls, data, hooks[..n], id) + if wasted then 1 else 0
  }

  /** Hook `n` announces the request and stores its snapshot. */
  ghost predicate Settles(mtls: bool, data: Snapshots, hooks: seq<seq<Request>>, id: string, n: nat) {
    && n < |hooks| && Emits(mtls, Hooks(mtls, data, hooks[..n]).data, hooks[n], id)
    && HandleAll(mtls, Hooks(mtls, data, hooks[..n]).data, hooks[n]).ok
  }

  ghost predicate Settled(mtls: bool, data: Snapshots, hooks: seq<seq<Request>>, id: string) {
    exists n: nat :: Settles(mtls, data, hooks, id, n)
  }

  lemma SettledPrefix(mtls: bool, data: Snapshots, hooks: seq<seq<Request>>, id: string, n: nat)
    requires n == |hooks| - 1
    ensures Settled(mtls, data, hooks, id) <==>
              Settled(mtls, data, hooks[..n], id) || Settles(mtls, data, hooks, id, n)
  {
    hide Emits, HandleAll, Hooks;
    forall k: nat | k < n ensures Settles(mtls, data, hooks, id, k) <==> Settles(mtls, data, hooks[..n], id, k) {
      assert hooks[..n][..k] == hooks[..k];
    }
  }

  /** Over any sequence of hooks during which the request keeps its resource, its resource is announced
      once by a hook that stores the snapshot, if there is one, and once by every hook before it that is
      refused after having got to the request. */
  lemma {:induction false} AnnouncedExactly(
      mtls: bool, data: Snapshots, hooks: seq<seq<Request>>, id: string, names: set<string>)
    requires (forall h | h in hooks :: KeepsIn(h, id, names)) && (id in data ==> Keeps(data[id], names))
    ensures var o := Hooks(mtls, data, hooks);
            && (id in o.data ==> Keeps(o.data[id], names)) && (id in data ==> id in o.data)
            && Announcements(o.events, id)
               == Repeats(mtls, data, hooks, id) + (if Settled(mtls, data, hooks, id) then 1 else 0)
            && (Settled(mtls, data, hooks, id) ==> id in o.data)
            && (id in data ==> Announcements(o.events, id) == 0)
    decreases |hooks|
  {
    hide HandleAll, Keeps, Settles;
    if hooks == [] {
      assert !Settled(mtls, data, hooks, id) by { NothingSettled(mtls, data, id); }
    } else {
      var n := |hooks| - 1;
      assert hooks[n] in hooks;
      AnnouncedExactly(mtls, data, hooks[..n], id, names);
      var before := Hooks(mtls, data, hooks[..n]);
      var o := HandleAll(mtls, before.data, hooks[n]);
      HookAnnounces(mtls, before.data, hooks[n], id, names);
      HandledIsStored(mtls, before.data, hooks[n], id, names);
      AnnouncementsAdd(before.events, o.events, id);
      SettledPrefix(mtls, data, hooks, id, n);
      SettlesStores(mtls, data, hooks, id, n);
    }
  }

  lemma NothingSettled(mtls: bool, data: Snapshots, id: string)
    ensures !Settled(mtls, data, [], id)
  {
  }

  lemma SettlesStores(mtls: bool, data: Snapshots, hooks: seq<seq<Request>>, id: string, n: nat)
    requires n < |hooks|
    ensures Settles(mtls, data, hooks, id, n) <==>
              && Emits(mtls, Hooks(mtls, data, hooks[..n]).data, hooks[n], id)
              && HandleAll(mtls, Hooks(mtls, data, hooks[..n]).data, hooks[n]).ok
    ensures Emits(mtls, Hooks(mtls, data, hooks[..n]).data, hooks[n], id) ==>
              id !in Hooks(mtls, data, hooks[..n]).data && exists r :: r in hooks[n] && r.id == id
  {
    hide HandleAll, Hooks;
    var before := Hooks(mtls, data, hooks[..n]).data;
    if Emits(mtls, before, hooks[n], id) {
      var k: nat :| Handles(mtls, before, hooks[n], id, k) && Announces(mtls, hooks[n][k].fields);
      assert hooks[n][k] in hooks[n];
    }
  }

  /** So at most once exactly when no hook is refused between announcing the request and storing its
      snapshot, or one is and no hook after it announces it again. */
  lemma AnnouncedAtMostOnce(mtls: bool, data: Snapshots, hooks: seq<seq<Request>>, id: string, names: set<string>)
    requires (forall h | h in hooks :: KeepsIn(h, id, names)) && (id in data ==> Keeps(data[id], names))
    ensures Announcements(Hooks(mtls, data, hooks).events, id) <= 1 <==>
              || Repeats(mtls, data, hooks, id) == 0
              || (Repeats(mtls, data, hooks, id) == 1 && !Settled(mtls, data, hooks, id))
  {
    hide Hooks, Settled, Repeats;
    AnnouncedExactly(mtls, data, hooks, id, names);
  }

  /** When a first request's resource is announced: exactly when it brings a resource and no client
      certificate comes in its way. */
  lemma FirstAnnouncement(mtls: bool, data: Snapshots, r: Request)
    requires r.id !in data
    ensures HandleAll(mtls, data, [r]).ok
    ensures Announcements(HandleAll(mtls, data, [r]).events, r.id) == if Announces(mtls, r.fields) then 1 else 0
  {
    assert [r][..0] == [];
    var d := Compare(map[], r.fields);
    AnnounceFirst(mtls, r.fields, r.id);
    assert HandleAll(mtls, data, [r]).events == [] + Dispatch(mtls, d, r.id) == Dispatch(mtls, d, r.id);
  }

  /** A request that arrives with its client certificate is announced neither then nor later. */
  lemma CertificateHidesResource(data: Snapshots, r: Request, hooks: seq<seq<Request>>)
    requires r.id !in data && "secret-mtls" in r.fields
    requires forall h | h in hooks :: KeepsIn(h, r.id, r.fields.Keys * ResourceNames)
    ensures HandleAll(true, data, [r]).ok
    ensures Announcements(Hooks(true, HandleAll(true, data, [r]).data, hooks).events, r.id) == 0
    ensures Announcements(HandleAll(true, data, [r]).events, r.id) == 0
  {
    hide Hooks, Settled, Repeats;
    FirstAnnouncement(true, data, r);
    var o := HandleAll(true, data, [r]);
    assert [r][..0] == [];
    assert o.data == data[r.id := r.fields];
    AnnouncedExactly(true, o.data, hooks, r.id, r.fields.Keys * ResourceNames);
  }

  /** A hook refused at its second request has announced the first one and stores nothing, so that the
      repeated hook announces it again. */
  lemma RefusalRepeats(mtls: bool, data: Snapshots, r: Request, refused: Request)
    requires r.id != refused.id && refused.id in data && r.id !in data && Announces(mtls, r.fields)
    requires !Accepts(Compare(data[refused.id], refused.fields))
    ensures var hook := [r, refused];
            && !HandleAll(mtls, data, hook).ok
            && Hooks(mtls, data, [hook, hook]).data == data
            && Announcements(Hooks(mtls, data, [hook, hook]).events, r.id) == 2
  {
    var hook := [r, refused];
    assert hook[..1] == [r] && [r][..0] == [];
    OthersUntouched(mtls, data, [r], refused.id);
    FirstAnnouncement(mtls, data, r);
    assert Snapshot(HandleAll(mtls, data, [r]).data, refused.id) == data[refused.id];
    var o := HandleAll(mtls, data, hook);
    assert !o.ok && o.events == HandleAll(mtls, data, [r]).events;
    assert [hook, hook][..1] == [hook] && [hook][..0] == [];
    assert Hooks(mtls, data, [hook]) == Outcome(true, data, [] + o.events);
    AnnouncementsAdd([] + o.events, o.events, r.id);
    assert [] + o.events == o.events;
  }
}
