/** One application's side of a relation: a logical dictionary kept partly in the databag and partly in
    grouped secrets, with a cache in front of the secrets (version 0 of the data interfaces). */
module RelationData {
  import opened Strings

  datatype Option<T> = None | Some(value: T)

  datatype Group = User | Tls | Mtls | Extra

  type Content = map<string, string>

  /** The secret a field belongs to when it is to be kept secret. */
  function GroupOf(field: string): Group {
    if field in {"username", "password", "uris", "read-only-uris"} then User
    else if field in {"tls", "tls-ca"} then Tls
    else if field == "mtls-cert" then Mtls
    else Extra
  }

  predicate Reserved(field: string) { StartsWith(field, "secret-") }

  /** What decides where a field is kept: the fields to be kept secret, whether this unit leads, and
      whether the platform has secrets. */
  datatype Setting = Setting(requested: set<string>, leader: bool, enabled: bool)

  /** The databag, the groups whose `secret-` reference stands in it, and the secrets by group. */
  datatype Box = Box(bag: Content, refs: set<Group>, store: map<Group, Content>)

  /** A relation that started on the databag stays on it. */
  predicate UsesSecrets(c: Setting, b: Box) {
    c.requested != {} && c.enabled && !(c.leader && c.requested * b.bag.Keys != {})
  }

  predicate MyGroup(c: Setting, g: Group) {
    !g.Extra? && exists f :: f in c.requested && GroupOf(f) == g
  }

  /** Writing an empty value into a databag removes the field. */
  function Written(bag: Content, data: Content): Content {
    map f | f in bag.Keys + data.Keys && !(f in data && data[f] == "") :: if f in data then data[f] else bag[f]
  }

  function Select(data: Content, fields: set<string>, g: Group): Content {
    map f | f in data && f in fields && GroupOf(f) == g :: data[f]
  }

  // ---- Reading ----

  /** A single field, as `fetch_my_relation_field` finds it. */
  function Field(c: Setting, b: Box, f: string): Option<string> {
    if UsesSecrets(c, b) && f in c.requested && GroupOf(f) in b.store && f in b.store[GroupOf(f)]
    then Some(b.store[GroupOf(f)][f])
    else if f in b.bag then Some(b.bag[f])
    else None
  }

  /** The dictionary that the fields make up: an empty value counts as no value. */
  function View(c: Setting, b: Box): Content {
    map f | f in b.bag.Keys + c.requested && !Reserved(f) && Field(c, b, f).Some? &&
      Field(c, b, f).value != "" :: Field(c, b, f).value
  }

  predicate InSecret(b: Box, f: string) { GroupOf(f) in b.store && f in b.store[GroupOf(f)] }

  /** The group's secret holds some of the fields. */
  ghost predicate GroupFound(b: Box, fields: set<string>, g: Group) {
    g in b.store && exists f :: f in fields && f in b.store[g]
  }

  /** Each secret holds fields of its group only. */
  ghost predicate Grouped(b: Box) {
    forall g, f | g in b.store && f in b.store[g] :: GroupOf(f) == g
  }

  /** Several fields at once: a field gets its second chance in the databag only if its group's secret holds
      none of those asked for. */
  ghost function Fetched(c: Setting, b: Box, fields: set<string>): Content {
    if UsesSecrets(c, b) then
      var secret := fields * c.requested;
      map f | f in fields && (if f in secret && GroupFound(b, secret, GroupOf(f)) then InSecret(b, f) else f in b.bag)
        :: if f in secret && GroupFound(b, secret, GroupOf(f)) then b.store[GroupOf(f)][f] else b.bag[f]
    else map f | f in fields && f in b.bag :: b.bag[f]
  }

  function AllFields(c: Setting, b: Box): set<string> { (set f | f in b.bag && !Reserved(f)) + c.requested }

  /** Exactly when a field read together with others comes out as it does alone: unless the databag holds it,
      and its group's secret holds others that were asked for but not this one. */
  lemma FetchedAgrees(c: Setting, b: Box, fields: set<string>, f: string)
    requires f in fields
    ensures (if f in Fetched(c, b, fields) then Some(Fetched(c, b, fields)[f]) else None) == Field(c, b, f)
            <==> !(&& UsesSecrets(c, b) && f in c.requested && f in b.bag && !InSecret(b, f)
                   && GroupFound(b, fields * c.requested, GroupOf(f)))
  {
    hide GroupOf;
    if f in fields * c.requested && InSecret(b, f) { assert GroupFound(b, fields * c.requested, GroupOf(f)); }
  }

  /** Such a field: not in the user secret, which holds another one, and in the databag of a unit that does not
      lead. */
  lemma MissedTogether()
    ensures var c := Setting({"username", "password"}, false, true);
            var b := Box(map["username" := "admin"], {User}, map[User := map["password" := "secret"]]);
            && Grouped(b) && Field(c, b, "username") == Some("admin")
            && "username" !in Fetched(c, b, {"username", "password"})
            && Fetched(c, b, {"username"}) == map["username" := "admin"]
  {
    var c := Setting({"username", "password"}, false, true);
    var b := Box(map["username" := "admin"], {User}, map[User := map["password" := "secret"]]);
    assert GroupOf("username") == User && GroupOf("password") == User;
    assert "password" in {"username", "password"} * c.requested && "password" in b.store[User];
    assert GroupFound(b, {"username", "password"} * c.requested, User);
    FetchedAgrees(c, b, {"username", "password"}, "username");
    FetchedAgrees(c, b, {"username"}, "username");
    assert !GroupFound(b, {"username"} * c.requested, User);
  }

  /** So the whole dictionary reads as its fields do one by one, where each field has one place; an empty
      value aside, it is the plain dictionary. */
  lemma FetchedWhole(c: Setting, b: Box)
    requires Valid(c, b)
    ensures Grouped(b)
    ensures forall f :: f in Fetched(c, b, AllFields(c, b)) <==> f in AllFields(c, b) && Field(c, b, f).Some?
    ensures forall f | f in Fetched(c, b, AllFields(c, b)) :: Field(c, b, f) == Some(Fetched(c, b, AllFields(c, b))[f])
    ensures View(c, b) == map f | f in Fetched(c, b, AllFields(c, b)) && Fetched(c, b, AllFields(c, b))[f] != ""
                            :: Fetched(c, b, AllFields(c, b))[f]
  {
    hide GroupOf, Reserved;
    var m := Fetched(c, b, AllFields(c, b));
    forall f | f in AllFields(c, b) ensures (if f in m then Some(m[f]) else None) == Field(c, b, f) {
      FetchedAgrees(c, b, AllFields(c, b), f);
      assert UsesSecrets(c, b) ==> f !in c.requested * b.bag.Keys;
    }
    forall f ensures f in View(c, b) <==> f in m && m[f] != "" { }
  }

  /** What the plain dictionary does on an update. */
  function Overlay(m: Content, data: Content): Content { Written(m, data) }

  // ---- Writing ----

  /** The secret for a new group cannot be created when the databag already refers to one. */
  predicate Refused(c: Setting, b: Box, g: Group) {
    g !in b.store && MyGroup(c, g) && g in b.refs
  }

  /** The state is one in which every secret field has one place: none is in the databag, or there are no
      secrets; and each secret is referred to and holds only fields of its group. */
  ghost predicate Valid(c: Setting, b: Box) {
    && (if UsesSecrets(c, b) then c.requested * b.bag.Keys == {} else b.store == map[])
    && (forall g | g in b.store :: b.store[g] != map[] && forall f | f in b.store[g] :: GroupOf(f) == g)
    && b.refs <= b.store.Keys
    && (forall f | f in c.requested :: !Reserved(f))
  }

  /** Updates by callers that leave the reserved names alone. */
  predicate Plain(data: Content) { forall f | f in data :: !Reserved(f) }

  function Touched(fields: set<string>): set<Group> { set f | f in fields :: GroupOf(f) }

  /** The groups among `groups` that an update can write. */
  function Writable(c: Setting, b: Box, groups: set<Group>): set<Group> {
    set g | g in groups && !Refused(c, b, g)
  }

  /** The secrets after the fields of these groups have joined them, and the references to new ones. */
  function Joined(b: Box, data: Content, fields: set<string>, groups: set<Group>): Box {
    Box(b.bag, b.refs + (groups - b.store.Keys),
        map g | g in b.store.Keys + groups ::
          if g !in groups then b.store[g] else (if g in b.store then b.store[g] else map[]) + Select(data, fields, g))
  }

  function InGroups(fields: set<string>, groups: set<Group>): set<string> {
    set f | f in fields && GroupOf(f) in groups
  }

  /** Where an update leaves things: secret fields join their groups' secrets, the others, and those of
      refused groups, go into the databag. */
  function UpdateOf(c: Setting, b: Box, data: Content): Box {
    if UsesSecrets(c, b) then
      var fields := data.Keys * c.requested;
      var groups := Writable(c, b, Touched(fields));
      var joined := Joined(b, data, fields, groups);
      joined.(bag := Written(joined.bag, data - InGroups(fields, groups)))
    else b.(bag := Written(b.bag, data))
  }

  function DeleteOf(c: Setting, b: Box, f: string): Box {
    if UsesSecrets(c, b) && f in c.requested && GroupOf(f) in b.store && f in b.store[GroupOf(f)] then
      var g := GroupOf(f);
      var left := b.store[g] - {f};
      if left == map[] then Box(b.bag, b.refs - {g}, b.store - {g}) else b.(store := b.store[g := left])
    else b.(bag := b.bag - {f})
  }

  // ---- What writing means for reading ----

  /** Each field of an update goes to exactly one place: the content of its group, or the databag. */
  lemma UpdatePartition(c: Setting, b: Box, data: Content, f: string)
    requires Valid(c, b) && UsesSecrets(c, b) && f in data
    ensures var fields := data.Keys * c.requested;
            var groups := Writable(c, b, Touched(fields));
            && (forall g | g in groups :: f in Select(data, fields, g) <==> f in c.requested && g == GroupOf(f))
            && (f in c.requested ==> GroupOf(f) in groups)
            && (f in data - InGroups(fields, groups) <==> f !in c.requested)
  {
  }

  /** Under the same roof as before: an update leaves the state valid and never moves a relation from
      secrets to the databag. */
  lemma UpdateValid(c: Setting, b: Box, data: Content)
    requires Valid(c, b) && Plain(data)
    ensures Valid(c, UpdateOf(c, b, data))
    ensures UsesSecrets(c, b) ==> UsesSecrets(c, UpdateOf(c, b, data))
  {
    if UsesSecrets(c, b) { SecretUpdateValid(c, b, data); } else { BagUpdateValid(c, b, data); }
  }

  lemma BagUpdateValid(c: Setting, b: Box, data: Content)
    requires Valid(c, b) && Plain(data) && !UsesSecrets(c, b)
    ensures Valid(c, UpdateOf(c, b, data))
  {
    var t := UpdateOf(c, b, data);
  }

  /** What the secrets hold after an update. */
  lemma StoreAfter(c: Setting, b: Box, data: Content, g: Group)
    requires Valid(c, b) && UsesSecrets(c, b)
    ensures var t := UpdateOf(c, b, data);
            && (g in t.store <==> g in b.store || exists f :: f in data && f in c.requested && GroupOf(f) == g)
            && (g in t.store ==> forall f :: f in t.store[g] <==>
                  (g in b.store && f in b.store[g]) || (f in data && f in c.requested && GroupOf(f) == g))
            && (g in t.store ==> forall f | f in t.store[g] ::
                 t.store[g][f] == if f in data && f in c.requested then data[f] else b.store[g][f])
  {
    hide GroupOf, Reserved, Written, Joined, Refused;
    var fields := data.Keys * c.requested;
    var groups := Writable(c, b, Touched(fields));
    NoneRefused(c, b);
    assert g in groups <==> exists f :: f in data && f in c.requested && GroupOf(f) == g;
    JoinedAt(b, data, fields, groups, g);
  }

  lemma NoneRefused(c: Setting, b: Box)
    requires Valid(c, b)
    ensures forall g :: !Refused(c, b, g)
  {
  }

  /** What the databag holds after an update: fields that are not secret. */
  lemma BagAfter(c: Setting, b: Box, data: Content, f: string)
    requires Valid(c, b) && UsesSecrets(c, b)
    ensures var t := UpdateOf(c, b, data);
            && (f in t.bag ==> f in b.bag || (f in data && f !in c.requested))
            && (!Reserved(f) && f !in c.requested ==>
                  (f in t.bag <==> if f in data then data[f] != "" else f in b.bag)
                  && (f in t.bag ==> t.bag[f] == if f in data then data[f] else b.bag[f]))
  {
    hide GroupOf, Reserved;
    if f in data { UpdatePartition(c, b, data, f); }
  }

  /** In any state: a secret field of an update goes into the databag exactly when its group's secret is gone
      while the databag still refers to it, and the group is not the one for everything else. */
  lemma FallsBack(c: Setting, b: Box, data: Content, f: string)
    requires UsesSecrets(c, b) && f in data && f in c.requested && data[f] != ""
    ensures var t, g := UpdateOf(c, b, data), GroupOf(f);
            if g !in b.store && g in b.refs && !g.Extra? then f in t.bag && t.bag[f] == data[f] && g !in t.store
            else g in t.store && f in t.store[g] && t.store[g][f] == data[f] && (f in t.bag ==> f in b.bag)
  {
    hide GroupOf, Reserved, UsesSecrets;
    var fields, g := data.Keys * c.requested, GroupOf(f);
    var groups := Writable(c, b, Touched(fields));
    assert g in Touched(fields);
    assert MyGroup(c, g) <==> !g.Extra?;
    JoinedAt(b, data, fields, groups, g);
  }

  /** References to secrets are no fields of the dictionary. */
  lemma ReferencesHidden(c: Setting, b: Box, name: string)
    requires "secret-" + name !in c.requested
    ensures "secret-" + name !in AllFields(c, b) && "secret-" + name !in View(c, b)
  {
    assert ("secret-" + name)[..7] == "secret-";
  }

  /** In which secret a field of an update ends up, and in no other: the credentials are kept together, the
      certificates of the server together, the client's certificate alone, and everything else in one. */
  lemma SecretByField(c: Setting, b: Box, data: Content, f: string)
    requires Valid(c, b) && UsesSecrets(c, b) && Plain(data) && f in data && f in c.requested
    ensures var g := if f == "username" || f == "password" || f == "uris" || f == "read-only-uris" then User
                     else if f == "tls" || f == "tls-ca" then Tls
                     else if f == "mtls-cert" then Mtls else Extra;
            var s := UpdateOf(c, b, data).store;
            g in s && f in s[g] && s[g][f] == data[f] && forall h | h in s && h != g :: f !in s[h]
  {
    var g := GroupOf(f);
    StoreAfter(c, b, data, g);
    UpdateValid(c, b, data);
    ValidGrouped(c, UpdateOf(c, b, data));
    hide UpdateOf, Reserved, UsesSecrets, Valid;
  }

  lemma ValidGrouped(c: Setting, b: Box)
    requires Valid(c, b)
    ensures Grouped(b)
  {
    hide GroupOf, UsesSecrets, Reserved;
  }

  lemma RefsAfter(c: Setting, b: Box, data: Content)
    requires Valid(c, b)
    ensures UpdateOf(c, b, data).refs <= UpdateOf(c, b, data).store.Keys
  {
    hide GroupOf, Reserved, Written;
  }

  lemma SecretUpdateValid(c: Setting, b: Box, data: Content)
    requires Valid(c, b) && Plain(data) && UsesSecrets(c, b)
    ensures Valid(c, UpdateOf(c, b, data)) && UsesSecrets(c, UpdateOf(c, b, data))
  {
    hide UpdateOf, GroupOf, Reserved;
    var t := UpdateOf(c, b, data);
    forall g | g in t.store ensures t.store[g] != map[] && forall f | f in t.store[g] :: GroupOf(f) == g {
      StoreAfter(c, b, data, g);
      if g !in b.store {
        var f :| f in data && f in c.requested && GroupOf(f) == g;
        assert f in t.store[g];
      } else {
        var f :| f in b.store[g];
        assert f in t.store[g];
      }
    }
    assert t.refs <= t.store.Keys by { RefsAfter(c, b, data); }
    forall f | f in t.bag ensures f !in c.requested {
      BagAfter(c, b, data, f);
      assert f !in c.requested * b.bag.Keys;
    }
    assert c.requested * t.bag.Keys == {};
  }

  /** An empty value reads like no value. */
  function Reading(o: Option<string>): Option<string> { if o == Some("") then None else o }

  /** Reading a field back after an update: the new value if it was part of the update, else as before. */
  lemma FieldAfterUpdate(c: Setting, b: Box, data: Content, f: string)
    requires Valid(c, b) && Plain(data) && !Reserved(f)
    ensures Reading(Field(c, UpdateOf(c, b, data), f)) == Reading(if f in data then Some(data[f]) else Field(c, b, f))
  {
    if UsesSecrets(c, b) { SecretFieldAfter(c, b, data, f); } else { BagFieldAfter(c, b, data, f); }
  }

  lemma SecretFieldAfter(c: Setting, b: Box, data: Content, f: string)
    requires Valid(c, b) && Plain(data) && !Reserved(f) && UsesSecrets(c, b)
    ensures Reading(Field(c, UpdateOf(c, b, data), f)) == Reading(if f in data then Some(data[f]) else Field(c, b, f))
  {
    hide UpdateOf, GroupOf, Reserved;
    SecretUpdateValid(c, b, data);
    StoreAfter(c, b, data, GroupOf(f));
    BagAfter(c, b, data, f);
    assert f !in c.requested * b.bag.Keys;
  }

  lemma BagFieldAfter(c: Setting, b: Box, data: Content, f: string)
    requires Valid(c, b) && !Reserved(f) && !UsesSecrets(c, b)
    ensures Reading(Field(c, UpdateOf(c, b, data), f)) == Reading(if f in data then Some(data[f]) else Field(c, b, f))
  {
  }

  lemma ViewAt(c: Setting, b: Box, f: string)
    ensures f in View(c, b) <==> !Reserved(f) && Reading(Field(c, b, f)).Some?
    ensures f in View(c, b) ==> Reading(Field(c, b, f)) == Some(View(c, b)[f])
  {
  }

  /** The databag and the secrets together behave as one plain dictionary under updates ... */
  lemma UpdateRefines(c: Setting, b: Box, data: Content)
    requires Valid(c, b) && Plain(data)
    ensures View(c, UpdateOf(c, b, data)) == Overlay(View(c, b), data)
  {
    hide UpdateOf, Field, View, Valid, Reserved;
    var t := UpdateOf(c, b, data);
    forall f ensures (f in View(c, t) <==> f in Overlay(View(c, b), data)) &&
      (f in View(c, t) ==> View(c, t)[f] == Overlay(View(c, b), data)[f]) {
      ViewAt(c, b, f);
      ViewAt(c, t, f);
      if !Reserved(f) { FieldAfterUpdate(c, b, data, f); }
    }
    assert View(c, t) == Overlay(View(c, b), data);
  }

  lemma DeleteValid(c: Setting, b: Box, f: string)
    requires Valid(c, b) && !Reserved(f)
    ensures Valid(c, DeleteOf(c, b, f))
  {
    hide GroupOf, Reserved;
    var t := DeleteOf(c, b, f);
    if UsesSecrets(c, b) {
      assert c.requested * t.bag.Keys <= c.requested * b.bag.Keys;
    } else if UsesSecrets(c, t) {
      assert c.requested * t.bag.Keys == {};
    }
  }

  lemma FieldAfterDelete(c: Setting, b: Box, f: string, x: string)
    requires Valid(c, b) && !Reserved(f) && !Reserved(x)
    ensures Field(c, DeleteOf(c, b, f), x) == if x == f then None else Field(c, b, x)
  {
    hide GroupOf, Reserved;
    var t := DeleteOf(c, b, f);
    if UsesSecrets(c, b) {
      assert c.requested * t.bag.Keys <= c.requested * b.bag.Keys == {};
      assert UsesSecrets(c, t);
      assert f in c.requested ==> f !in c.requested * b.bag.Keys;
      assert x != f && GroupOf(f) in b.store && x in b.store[GroupOf(f)] ==> x in b.store[GroupOf(f)] - {f};
    }
  }

  /** ... and under removals of a field. */
  lemma DeleteRefines(c: Setting, b: Box, f: string)
    requires Valid(c, b) && !Reserved(f)
    ensures View(c, DeleteOf(c, b, f)) == View(c, b) - {f}
  {
    hide DeleteOf, Field, View, Valid, Reserved;
    var t := DeleteOf(c, b, f);
    forall x ensures (x in View(c, t) <==> x in View(c, b) - {f}) &&
      (x in View(c, t) ==> View(c, t)[x] == View(c, b)[x]) {
      ViewAt(c, b, x);
      ViewAt(c, t, x);
      if !Reserved(x) { FieldAfterDelete(c, b, f, x); }
    }
    assert View(c, t) == View(c, b) - {f};
  }

  // ---- Whole runs ----

  datatype Op = Put(data: Content) | Drop(field: string)

  predicate PlainOp(op: Op) {
    match op
    case Put(data) => Plain(data)
    case Drop(field) => !Reserved(field)
  }

  function After(c: Setting, b: Box, ops: seq<Op>): Box
    decreases |ops|
  {
    if ops == [] then b
    else
      var was, op := After(c, b, ops[..|ops| - 1]), ops[|ops| - 1];
      if op.Put? then UpdateOf(c, was, op.data) else DeleteOf(c, was, op.field)
  }

  /** The same operations on a plain dictionary. */
  function PlainAfter(m: Content, ops: seq<Op>): Content
    decreases |ops|
  {
    if ops == [] then m
    else
      var was, op := PlainAfter(m, ops[..|ops| - 1]), ops[|ops| - 1];
      if op.Put? then Overlay(was, op.data) else was - {op.field}
  }

  /** Any run of updates and removals reads back like a run on a plain dictionary, whether the relation
      keeps its secrets as secrets or has stayed on the databag. */
  lemma {:induction false} RunRefines(c: Setting, b: Box, ops: seq<Op>)
    requires Valid(c, b) && forall op | op in ops :: PlainOp(op)
    ensures Valid(c, After(c, b, ops)) && View(c, After(c, b, ops)) == PlainAfter(View(c, b), ops)
    decreases |ops|
  {
    hide UpdateOf, DeleteOf, View, Valid, Reserved, Overlay, Plain;
    if ops != [] {
      var n := |ops| - 1;
      RunRefines(c, b, ops[..n]);
      var was, op := After(c, b, ops[..n]), ops[n];
      assert PlainOp(op);
      match op
      case Put(data) =>
        UpdateRefines(c, was, data);
        UpdateValid(c, was, data);
      case Drop(field) =>
        DeleteRefines(c, was, field);
        DeleteValid(c, was, field);
    }
  }

  /** Without that order: in whatever state, a removed field is really gone unless a secret and the
      databag both hold it and nothing else keeps the relation on the databag. */
  lemma DeleteTakesEffect(c: Setting, b: Box, f: string)
    requires !Reserved(f)
    ensures Field(c, DeleteOf(c, b, f), f) == None
            <==> !(&& f in b.bag && f in c.requested && c.enabled
                   && GroupOf(f) in b.store && f in b.store[GroupOf(f)]
                   && (!c.leader || c.requested * b.bag.Keys == {f}))
  {
    hide GroupOf, Reserved;
    var t := DeleteOf(c, b, f);
    if f in b.bag && f in c.requested {
      assert f in c.requested * b.bag.Keys;
      if c.leader {
        assert t.bag == b.bag - {f};
        assert c.requested * t.bag.Keys == c.requested * b.bag.Keys - {f};
      }
    }
  }

  // ---- One group at a time ----

  lemma JoinedOne(b: Box, data: Content, fields: set<string>, g: Group)
    ensures Joined(b, data, fields, {g})
            == if g in b.store then b.(store := b.store[g := b.store[g] + Select(data, fields, g)])
               else b.(refs := b.refs + {g}, store := b.store[g := Select(data, fields, g)])
  {
    hide Select;
    var nothing: Content := map[];
    assert nothing + Select(data, fields, g) == Select(data, fields, g);
  }

  lemma JoinedNone(b: Box, data: Content, fields: set<string>)
    ensures Joined(b, data, fields, {}) == b
  {
  }

  lemma JoinedAt(b: Box, data: Content, fields: set<string>, groups: set<Group>, h: Group)
    ensures var s := Joined(b, data, fields, groups).store;
            && (h in s <==> h in b.store || h in groups)
            && (h in s ==>
                 s[h] == if h !in groups then b.store[h]
                         else (if h in b.store then b.store[h] else map[]) + Select(data, fields, h))
  {
  }

  lemma JoinedAlso(b: Box, data: Content, fields: set<string>, groups: set<Group>, g: Group)
    requires g !in groups
    ensures Joined(Joined(b, data, fields, groups), data, fields, {g}) == Joined(b, data, fields, groups + {g})
  {
    var mid := Joined(b, data, fields, groups);
    var x, y := Joined(mid, data, fields, {g}), Joined(b, data, fields, groups + {g});
    assert x.refs == y.refs && x.bag == y.bag;
    hide Select, Joined;
    forall h ensures (h in x.store <==> h in y.store) && (h in x.store ==> x.store[h] == y.store[h]) {
      JoinedAt(b, data, fields, groups, h);
      JoinedAt(mid, data, fields, {g}, h);
      JoinedAt(b, data, fields, groups + {g}, h);
    }
    assert x.store == y.store;
  }

  /** The next group of an update, refused or not. */
  lemma JoinedNext(c: Setting, b: Box, data: Content, fields: set<string>, seen: set<Group>, g: Group)
    requires g !in seen
    ensures var before := Joined(b, data, fields, Writable(c, b, seen));
            && Refused(c, before, g) == Refused(c, b, g)
            && Joined(b, data, fields, Writable(c, b, seen + {g}))
               == (if Refused(c, b, g) then before else Joined(before, data, fields, {g}))
            && Writable(c, b, seen + {g}) == Writable(c, b, seen) + (if Refused(c, b, g) then {} else {g})
  {
    var w := Writable(c, b, seen);
    assert g !in w;
    hide Select, MyGroup;
    var before := Joined(b, data, fields, w);
    assert Writable(c, b, seen + {g}) == w + (if Refused(c, b, g) then {} else {g});
    if !Refused(c, b, g) {
      JoinedAlso(b, data, fields, w, g);
    } else {
      assert w + {} == w;
    }
  }

  // ---- The operations with their cache ----

  /** The data of one side, with its databag, its secrets in the platform's store, and what has been read
      of them.  A cached secret with no content has been found but not read yet. */
  class DataStore {
    const setting: Setting
    var bag: Content
    var refs: set<Group>
    var secrets: map<Group, Content>
    var cache: map<Group, Content>
    var revisions: nat

    constructor (setting: Setting, b: Box)
      ensures this.setting == setting && State() == b && Coherent() && revisions == 0
    {
      this.setting, bag, refs, secrets, cache, revisions := setting, b.bag, b.refs, b.store, map[], 0;
    }

    ghost function State(): Box reads this { Box(bag, refs, secrets) }

    ghost predicate Coherent() reads this {
      forall g | g in cache :: g in secrets && (cache[g] == map[] || cache[g] == secrets[g])
    }

    method GetSecret(g: Group) returns (found: bool)
      requires Coherent()
      modifies this`cache
      ensures Coherent() && found == (g in secrets) && (found ==> g in cache)
    {
      if g !in cache && g in secrets { cache := cache[g := map[]]; }
      return g in cache;
    }

    method GetContent(g: Group) returns (content: Content)
      requires Coherent() && g in cache
      modifies this`cache
      ensures Coherent() && content == secrets[g] && g in cache && cache[g] == content
    {
      if cache[g] == map[] { cache := cache[g := secrets[g]]; }
      return cache[g];
    }

    /** Content that stays the same makes no new revision. */
    method SetContent(g: Group, content: Content)
      requires Coherent() && g in cache && content != map[]
      modifies this`cache, this`secrets, this`revisions
      ensures Coherent() && secrets == old(secrets)[g := content]
      ensures revisions == old(revisions) + if content == old(secrets)[g] then 0 else 1
    {
      var current := GetContent(g);
      if content == current {
        assert secrets == secrets[g := content];
        return;
      }
      secrets, cache, revisions := secrets[g := content], cache[g := content], revisions + 1;
    }

    method AddSecret(g: Group, content: Content)
      requires Coherent() && g !in secrets
      modifies this`refs, this`cache, this`secrets, this`revisions
      ensures Coherent() && secrets == old(secrets)[g := content] && revisions == old(revisions) + 1
      ensures refs == old(refs) + {g}
    {
      secrets, cache, revisions := secrets[g := content], cache[g := content], revisions + 1;
      refs := refs + {g};
    }

    /** Adds the group's fields to its secret, or creates the secret; refuses when the databag refers to a
        secret that is not there. */
    method AddOrUpdateSecret(g: Group, fields: set<string>, data: Content) returns (done: bool)
      requires Coherent()
      requires Select(data, fields, g) != map[]
      modifies this`refs, this`cache, this`secrets, this`revisions
      ensures Coherent() && done == !Refused(setting, old(State()), g)
      ensures State() == if done then Joined(old(State()), data, fields, {g}) else old(State())
      ensures revisions == old(revisions) + if secrets == old(secrets) then 0 else 1
    {
      ghost var b := State();
      JoinedOne(b, data, fields, g);
      var content := Select(data, fields, g);
      var found := GetSecret(g);
      if found {
        var current := GetContent(g);
        SetContent(g, current + content);
        SameAt(old(secrets), g, current + content);
        return true;
      }
      if MyGroup(setting, g) && g in refs { return false; }
      AddSecret(g, content);
      return true;
    }

    /** Brings the secret fields of an update into their groups' secrets, one group at a time, and returns
        the fields that are left for the databag. */
    method UpdateSecrets(data: Content) returns (normal: set<string>)
      requires Coherent()
      modifies this`refs, this`cache, this`secrets, this`revisions
      ensures Coherent()
      ensures var fields := data.Keys * setting.requested;
              var groups := Writable(setting, old(State()), Touched(fields));
              State() == Joined(old(State()), data, fields, groups) && normal == data.Keys - InGroups(fields, groups)
    {
      ghost var b := State();
      var fields := data.Keys * setting.requested;
      var todo := Touched(fields);
      ghost var groups, seen: set<Group> := todo, {};
      normal := data.Keys - setting.requested;
      JoinedNone(b, data, fields);
      assert Writable(setting, b, {}) == {} && InGroups(fields, {} + todo) == fields;
      hide Joined, Refused, MyGroup, GroupOf, Select, Touched, Writable, InGroups;
      while todo != {}
        invariant todo + seen == groups && todo !! seen && Coherent()
        invariant State() == Joined(b, data, fields, Writable(setting, b, seen))
        invariant normal == data.Keys - InGroups(fields, Writable(setting, b, seen) + todo)
        decreases todo
      {
        var g :| g in todo;
        ghost var was := todo;
        JoinedNext(setting, b, data, fields, seen, g);
        SelectSome(data, fields, g);
        var done := AddOrUpdateSecret(g, fields, data);
        if !done { normal := normal + GroupFields(fields, g); }
        todo := todo - {g};
        NormalNext(setting, b, data.Keys, fields, seen, todo, g, done);
        seen := seen + {g};
        assert was == todo + {g};
      }
      assert seen == groups && Writable(setting, b, groups) + {} == Writable(setting, b, groups);
    }

    /** Sorts the fields into secrets and databag. */
    method Update(data: Content)
      requires Coherent()
      modifies this`bag, this`refs, this`cache, this`secrets, this`revisions
      ensures Coherent() && State() == UpdateOf(setting, old(State()), data)
    {
      hide Joined, Written, Writable, Touched;
      assert data - {} == data;
      var normal := data.Keys;
      if setting.requested != {} && setting.enabled && !(setting.leader && setting.requested * bag.Keys != {}) {
        normal := UpdateSecrets(data);
      }
      WrittenSame(data, normal);
      assert normal == data.Keys - {} || UsesSecrets(setting, old(State()));
      bag := Written(bag, map f | f in data && f in normal :: data[f]);
    }

    /** Removes a field from its group's secret, and the secret with its last field; a field that is in no
        secret gets its second chance in the databag. */
    method Delete(f: string)
      requires Coherent()
      modifies this`bag, this`refs, this`cache, this`secrets, this`revisions
      ensures Coherent() && State() == DeleteOf(setting, old(State()), f)
    {
      var g := GroupOf(f);
      if setting.requested != {} && setting.enabled && !(setting.leader && setting.requested * bag.Keys != {}) &&
        f in setting.requested {
        var found := GetSecret(g);
        if found {
          var current := GetContent(g);
          if f in current {
            var left := current - {f};
            if left == map[] {
              refs := refs - {g};
              secrets, cache := secrets - {g}, cache - {g};
            } else {
              SetContent(g, left);
            }
            return;
          }
        }
      }
      bag := bag - {f};
    }

    method FetchField(f: string) returns (o: Option<string>)
      requires Coherent()
      modifies this`cache
      ensures Coherent() && State() == old(State()) && o == Field(setting, State(), f)
    {
      if setting.requested != {} && setting.enabled && !(setting.leader && setting.requested * bag.Keys != {}) &&
        f in setting.requested {
        var found := GetSecret(GroupOf(f));
        if found {
          var content := GetContent(GroupOf(f));
          if f in content { return Some(content[f]); }
        }
      }
      return if f in bag then Some(bag[f]) else None;
    }

    /** Several fields: the secrets group by group, and then the databag. */
    method FetchFields(fields: set<string>) returns (m: Content)
      requires Coherent() && Grouped(State())
      modifies this`cache
      ensures Coherent() && State() == old(State()) && m == Fetched(setting, State(), fields)
    {
      hide Held, Missing, Touched;
      m := map[];
      var normal := fields;
      if setting.requested != {} && setting.enabled && !(setting.leader && setting.requested * bag.Keys != {}) {
        var secret := fields * setting.requested;
        m, normal := FetchSecrets(secret);
        normal := fields - setting.requested + normal;
        FetchedParts(setting, State(), fields);
      }
      m := m + map f | f in normal && f in bag :: bag[f];
    }

    /** What the secrets hold of the fields, and the fields of the groups that hold none of them. */
    method FetchSecrets(secret: set<string>) returns (m: Content, missing: set<string>)
      requires Coherent() && Grouped(State())
      modifies this`cache
      ensures Coherent() && State() == old(State())
      ensures m == Held(State(), secret, Touched(secret)) && missing == Missing(State(), secret, Touched(secret))
    {
      var todo := Touched(secret);
      ghost var seen: set<Group> := {};
      m, missing := map[], {};
      hide GroupOf, Held, Missing, Grouped;
      HeldNone(State(), secret);
      while todo != {}
        invariant todo + seen == Touched(secret) && Coherent() && State() == old(State())
        invariant m == Held(State(), secret, seen) && missing == Missing(State(), secret, seen)
        decreases todo
      {
        var g :| g in todo;
        ghost var was := todo;
        var found := GetSecret(g);
        var held: Content := map[];
        if found {
          var content := GetContent(g);
          held := map f | f in content && f in secret :: content[f];
        }
        HeldNext(State(), secret, seen, g, held);
        if held != map[] { m := m + held; } else { missing := missing + GroupFields(secret, g); }
        todo, seen := todo - {g}, seen + {g};
        assert was == todo + {g};
      }
    }

    /** The whole dictionary: all fields that are no references to secrets, and all fields kept in secrets. */
    method FetchAll() returns (m: Content)
      requires Coherent() && Grouped(State())
      modifies this`cache
      ensures Coherent() && State() == old(State()) && m == Fetched(setting, State(), AllFields(setting, State()))
    {
      m := FetchFields((set f | f in bag && !Reserved(f)) + setting.requested);
    }
  }

  /** What the secrets of these groups hold of the fields. */
  ghost function Held(b: Box, secret: set<string>, groups: set<Group>): Content {
    map f | f in secret && GroupOf(f) in groups && InSecret(b, f) :: b.store[GroupOf(f)][f]
  }

  /** The fields of those of these groups whose secrets hold none of the fields. */
  ghost function Missing(b: Box, secret: set<string>, groups: set<Group>): set<string> {
    set f | f in secret && GroupOf(f) in groups && !GroupFound(b, secret, GroupOf(f))
  }

  lemma HeldNone(b: Box, secret: set<string>)
    ensures Held(b, secret, {}) == map[] && Missing(b, secret, {}) == {}
  {
  }

  lemma HeldNext(b: Box, secret: set<string>, seen: set<Group>, g: Group, held: Content)
    requires Grouped(b)
    requires held == if g in b.store then map f | f in b.store[g] && f in secret :: b.store[g][f] else map[]
    ensures Held(b, secret, seen + {g}) == Held(b, secret, seen) + held
    ensures Missing(b, secret, seen + {g})
            == Missing(b, secret, seen) + if held == map[] then GroupFields(secret, g) else {}
  {
    hide GroupOf, GroupFound, InSecret, Grouped, Held, Missing, GroupFields;
    HeldIs(b, secret, g, held);
    HeldJoins(b, secret, seen, g, held);
    MissingJoins(b, secret, seen, g);
  }

  lemma HeldJoins(b: Box, secret: set<string>, seen: set<Group>, g: Group, held: Content)
    requires forall f :: f in held <==> f in secret && GroupOf(f) == g && InSecret(b, f)
    requires forall f | f in held ::
               GroupOf(f) in b.store && f in b.store[GroupOf(f)] && held[f] == b.store[GroupOf(f)][f]
    ensures Held(b, secret, seen + {g}) == Held(b, secret, seen) + held
  {
    hide GroupOf;
  }

  lemma MissingJoins(b: Box, secret: set<string>, seen: set<Group>, g: Group)
    ensures Missing(b, secret, seen + {g})
            == Missing(b, secret, seen) + if GroupFound(b, secret, g) then {} else GroupFields(secret, g)
  {
    hide GroupOf, GroupFound;
  }

  lemma HeldIs(b: Box, secret: set<string>, g: Group, held: Content)
    requires Grouped(b)
    requires held == if g in b.store then map f | f in b.store[g] && f in secret :: b.store[g][f] else map[]
    ensures forall f :: f in held <==> f in secret && GroupOf(f) == g && InSecret(b, f)
    ensures forall f | f in held ::
              GroupOf(f) in b.store && f in b.store[GroupOf(f)] && held[f] == b.store[GroupOf(f)][f]
    ensures held == map[] <==> !GroupFound(b, secret, g)
  {
    hide GroupOf;
    if GroupFound(b, secret, g) {
      var f :| f in secret && f in b.store[g];
      assert f in held;
    }
    if held != map[] {
      var f :| f in held;
      assert GroupFound(b, secret, g);
    }
  }

  /** Both parts together. */
  lemma FetchedParts(c: Setting, b: Box, fields: set<string>)
    requires UsesSecrets(c, b)
    ensures var secret := fields * c.requested;
            var groups := Touched(secret);
            var normal := fields - c.requested + Missing(b, secret, groups);
            Fetched(c, b, fields) == Held(b, secret, groups) + map f | f in normal && f in b.bag :: b.bag[f]
  {
    hide GroupOf, GroupFound, UsesSecrets;
    var secret := fields * c.requested;
    var groups := Touched(secret);
    forall f | f in secret ensures GroupOf(f) in groups && (InSecret(b, f) ==> GroupFound(b, secret, GroupOf(f))) {
      if InSecret(b, f) { InSecretFound(b, secret, f); }
    }
    hide InSecret, Touched;
    var normal := fields - c.requested + Missing(b, secret, groups);
    var r := Held(b, secret, groups) + map f | f in normal && f in b.bag :: b.bag[f];
    assert Fetched(c, b, fields).Keys == r.Keys;
  }

  lemma InSecretFound(b: Box, secret: set<string>, f: string)
    requires f in secret && InSecret(b, f)
    ensures GroupFound(b, secret, GroupOf(f))
  {
    hide GroupOf;
  }

  lemma SameAt(store: map<Group, Content>, g: Group, content: Content)
    requires g in store
    ensures store[g := content] == store <==> content == store[g]
  {
    if store[g := content] == store { assert store[g := content][g] == store[g]; }
  }

  lemma SelectSome(data: Content, fields: set<string>, g: Group)
    requires fields <= data.Keys && g in Touched(fields)
    ensures Select(data, fields, g) != map[]
  {
    var f :| f in fields && GroupOf(f) == g;
    assert f in Select(data, fields, g);
  }

  function GroupFields(fields: set<string>, g: Group): set<string> { set f | f in fields && GroupOf(f) == g }

  lemma NormalNext(
      c: Setting, b: Box, keys: set<string>, fields: set<string>, seen: set<Group>, todo: set<Group>, g: Group,
      done: bool)
    requires fields <= keys && g !in todo && g !in seen && done == !Refused(c, b, g)
    ensures keys - InGroups(fields, Writable(c, b, seen + {g}) + todo)
            == (keys - InGroups(fields, Writable(c, b, seen) + (todo + {g})))
               + (if done then {} else GroupFields(fields, g))
  {
    hide GroupOf, Refused;
  }

  lemma WrittenSame(data: Content, normal: set<string>)
    ensures forall drop: set<string> | drop <= data.Keys && normal == data.Keys - drop ::
              (map f | f in data && f in normal :: data[f]) == data - drop
  {
  }
}
