/** Users' access rules: what the cluster stores, what its listing shows, and how `src/managers/auth.py`
    drives them towards a requested set with commands that may fail at any point. */
module Acls {
  import opened Strings

  datatype Resource = Topic | Group

  /** A rule as the charm knows it. */
  datatype Acl = Acl(kind: Resource, name: string, user: string, operation: string)

  /** A rule as the cluster stores it. */
  datatype Binding = Binding(kind: Resource, name: string, prefixed: bool, user: string, operation: string)

  /** Topic names that the charm takes for prefix patterns. */
  predicate PatternName(name: string) { |name| > 3 && name[|name| - 1] == '*' }

  /** The binding that the add and remove commands address. */
  function Addressed(a: Acl): Binding {
    if a.kind.Group? then Binding(a.kind, a.name, true, a.user, a.operation)
    else if PatternName(a.name) then Binding(a.kind, a.name[..|a.name| - 1], true, a.user, a.operation)
    else Binding(a.kind, a.name, false, a.user, a.operation)
  }

  /** The listing does not show whether a binding is a prefix pattern. */
  function Listed(b: Binding): Acl { Acl(b.kind, b.name, b.user, b.operation) }

  predicate Literal(a: Acl) { a.kind.Group? || !PatternName(a.name) }

  function OfUser(bs: set<Binding>, user: string): set<Binding> { set b | b in bs && b.user == user }

  function Listing(bs: set<Binding>): set<Acl> { set b | b in bs :: Listed(b) }

  function AllAddressed(acls: set<Acl>): set<Binding> { set a | a in acls :: Addressed(a) }

  /** A binding that the charm, reading it off the listing, would address again. */
  predicate Faithful(b: Binding) { Addressed(Listed(b)) == b }

  /** What the commands address: a group name stands for all names that begin with it, and so does a topic
      name of more than three characters with a star at its end, without the star; others for themselves. */
  lemma AddressMeans(a: Acl)
    ensures var b := Addressed(a);
            && b.kind == a.kind && b.user == a.user && b.operation == a.operation
            && (b.prefixed <==> a.kind.Group? || exists stem: string :: |stem| >= 3 && a.name == stem + "*")
            && a.name == b.name + if b.prefixed && a.kind.Topic? then "*" else ""
  {
    if a.kind.Topic? && PatternName(a.name) {
      var stem := a.name[..|a.name| - 1];
      assert |stem| >= 3 && a.name == stem + "*";
    }
  }

  // ---- What an update and a removal amount to ----

  function Updated(bs: set<Binding>, user: string, wanted: set<Acl>): set<Binding> {
    var current := Listing(OfUser(bs, user));
    bs + AllAddressed(wanted - current) - AllAddressed(current - wanted)
  }

  function Cleared(bs: set<Binding>, user: string): set<Binding> {
    bs - AllAddressed(Listing(OfUser(bs, user)))
  }

  /** On literal names, the user's bindings become exactly the requested ones and nobody else's change. */
  lemma UpdateExact(bs: set<Binding>, user: string, wanted: set<Acl>)
    requires forall a | a in wanted :: a.user == user && Literal(a)
    requires forall b | b in OfUser(bs, user) :: Faithful(b)
    ensures OfUser(Updated(bs, user, wanted), user) == AllAddressed(wanted)
    ensures Listing(OfUser(Updated(bs, user, wanted), user)) == wanted
    ensures forall other | other != user :: OfUser(Updated(bs, user, wanted), other) == OfUser(bs, other)
  {
    var current := Listing(OfUser(bs, user));
    var after := Updated(bs, user, wanted);
    forall b ensures b in OfUser(after, user) <==> b in AllAddressed(wanted) {
      if b in AllAddressed(wanted) {
        var a :| a in wanted && b == Addressed(a);
        if a in current {
          var was :| was in OfUser(bs, user) && Listed(was) == a;
        }
        if x :| x in current - wanted && Addressed(x) == b { SameAddress(x, a, bs); }
      }
      if b in OfUser(after, user) && b in bs { assert Listed(b) in current; }
    }
    forall a ensures a in Listing(OfUser(after, user)) <==> a in wanted {
      if a in wanted { assert Addressed(a) in OfUser(after, user) && Listed(Addressed(a)) == a; }
    }
    forall other | other != user ensures OfUser(after, other) == OfUser(bs, other) {
      OthersKept(bs, user, wanted, other);
    }
  }

  lemma SameAddress(x: Acl, a: Acl, bs: set<Binding>)
    requires Literal(a) && Addressed(x) == Addressed(a)
    requires x in Listing(bs) && forall b | b in bs && b.user == a.user :: Faithful(b)
    ensures x == a
  {
  }

  /** An update touches no other user's bindings, whatever the names. */
  lemma OthersKept(bs: set<Binding>, user: string, wanted: set<Acl>, other: string)
    requires (forall a | a in wanted :: a.user == user) && other != user
    ensures OfUser(Updated(bs, user, wanted), other) == OfUser(bs, other)
  {
  }

  /** A second update asks for nothing, on literal names. */
  lemma UpdateTwice(bs: set<Binding>, user: string, wanted: set<Acl>)
    requires forall a | a in wanted :: a.user == user && Literal(a)
    requires forall b | b in OfUser(bs, user) :: Faithful(b)
    ensures var once := Updated(bs, user, wanted);
            && Listing(OfUser(once, user)) - wanted == {} && wanted - Listing(OfUser(once, user)) == {}
            && Updated(once, user, wanted) == once
  {
    UpdateExact(bs, user, wanted);
  }

  // ---- What a removal leaves behind ----

  /** How long the name of a binding the removal leaves must at least be, seen from a surviving one:
      what addresses an unfaithful binding is a longer unfaithful one. */
  lemma AddressedByLonger(b: Binding, source: Binding)
    requires !Faithful(b) && Addressed(Listed(source)) == b
    ensures !Faithful(source) && |source.name| > |b.name|
  {
  }

  lemma {:induction false} NoLongest(mine: set<Binding>, b: Binding, bound: nat)
    requires mine <= AllAddressed(Listing(mine)) && b in mine && |b.name| + bound >= Longest(mine)
    ensures Faithful(b)
    decreases bound
  {
    if !Faithful(b) {
      var a :| a in Listing(mine) && Addressed(a) == b;
      var source :| source in mine && Listed(source) == a;
      AddressedByLonger(b, source);
      LongestBounds(mine, source);
      NoLongest(mine, source, bound - 1);
    }
  }

  ghost function Longest(bs: set<Binding>): nat {
    if bs == {} then 0 else var b :| b in bs; if |b.name| > Longest(bs - {b}) then |b.name| else Longest(bs - {b})
  }

  lemma {:induction false} LongestBounds(bs: set<Binding>, b: Binding)
    requires b in bs
    ensures |b.name| <= Longest(bs)
    decreases bs
  {
    var x :| x in bs && Longest(bs) == (if |x.name| > Longest(bs - {x}) then |x.name| else Longest(bs - {x}));
    if x != b { LongestBounds(bs - {x}, b); }
  }

  /** Removing all of a user's rules leaves none exactly when every one of them is faithful: no prefix
      pattern on a topic, and no literal topic name that looks like one. */
  lemma ClearedExactly(bs: set<Binding>, user: string)
    ensures OfUser(Cleared(bs, user), user) == {} <==> forall b | b in OfUser(bs, user) :: Faithful(b)
    ensures forall other | other != user :: OfUser(Cleared(bs, user), other) == OfUser(bs, other)
  {
    var mine := OfUser(bs, user);
    if OfUser(Cleared(bs, user), user) == {} {
      forall b | b in mine ensures b in AllAddressed(Listing(mine)) {
        assert b in OfUser(Cleared(bs, user), user) || b in AllAddressed(Listing(mine));
      }
      forall b | b in mine ensures Faithful(b) { NoLongest(mine, b, Longest(mine)); }
    }
    if forall b | b in mine :: Faithful(b) {
      forall b | b in mine ensures b in AllAddressed(Listing(mine)) {
        assert Listed(b) in Listing(mine);
      }
    }
  }

  lemma FaithfulMeans(b: Binding)
    ensures Faithful(b) <==> if b.kind.Group? then b.prefixed else !b.prefixed && !PatternName(b.name)
  {
  }

  /** A departed client whose topic was a pattern keeps its access: the rule the charm itself created
      for the pattern is one that the charm cannot remove. */
  lemma PatternStays(bs: set<Binding>, a: Acl)
    requires a.kind.Topic? && PatternName(a.name) && OfUser(bs, a.user) == {Addressed(a)}
    ensures OfUser(Cleared(bs, a.user), a.user) == {Addressed(a)}
  {
    var b := Addressed(a);
    FaithfulMeans(b);
    assert b in OfUser(bs, a.user);
    assert Listing({b}) == {Listed(b)} && AllAddressed({Listed(b)}) == {Addressed(Listed(b))};
  }

  // ---- The requested rules ----

  datatype Permission = Permission(kind: Resource, name: string, privileges: seq<string>)

  /** What a client asks for; empty strings stand for what it leaves out. */
  datatype Request = Request(user: string, topic: string, roles: string, group: string, permissions: seq<Permission>)

  predicate Contains(s: string, part: string) {
    exists i: nat | i <= |s| :: StartsWith(s[i..], part)
  }

  /** The consumer group that a consumer may read. */
  function GroupName(r: Request): string { if r.group != "" then r.group else r.user + "-" }

  /** The roles are looked for inside the string, so a client may ask for several. */
  function Wanted(r: Request): set<Acl> {
    (if Contains(r.roles, "producer")
     then {Acl(Topic, r.topic, r.user, "CREATE"), Acl(Topic, r.topic, r.user, "WRITE"),
       Acl(Topic, r.topic, r.user, "DESCRIBE")} else {})
    + (if Contains(r.roles, "consumer")
       then {Acl(Topic, r.topic, r.user, "READ"), Acl(Topic, r.topic, r.user, "DESCRIBE"),
         Acl(Group, GroupName(r), r.user, "READ")} else {})
    + (set p, o | p in r.permissions && o in p.privileges :: Acl(p.kind, p.name, r.user, o))
  }

  /** All names asked for are literal. */
  predicate LiteralRequest(r: Request) {
    && !PatternName(r.topic)
    && forall p | p in r.permissions :: p.kind.Group? || !PatternName(p.name)
  }

  lemma WantedOwn(r: Request)
    ensures forall a | a in Wanted(r) :: a.user == r.user
    ensures LiteralRequest(r) ==> forall a | a in Wanted(r) :: Literal(a)
  {
  }

  lemma ContainsMeans(s: string, part: string)
    ensures Contains(s, part) <==> exists before: string, after: string :: s == before + part + after
  {
    if i: nat :| i <= |s| && StartsWith(s[i..], part) {
      assert s == s[..i] + part + s[i..][|part|..];
    }
    if before: string, after: string :| s == before + part + after {
      assert s[|before|..][..|part|] == part;
      assert StartsWith(s[|before|..], part);
    }
  }

  /** What a client may ask for: to write to and create its topic as a producer, to read it and its consumer
      groups as a consumer, to describe it as either, and what its permissions list. */
  ghost predicate Asked(r: Request, a: Acl) {
    var producer, consumer := Contains(r.roles, "producer"), Contains(r.roles, "consumer");
    && a.user == r.user
    && (|| (a.kind == Topic && a.name == r.topic && a.operation in {"WRITE", "CREATE"} && producer)
        || (a.kind == Topic && a.name == r.topic && a.operation == "READ" && consumer)
        || (a.kind == Topic && a.name == r.topic && a.operation == "DESCRIBE" && (producer || consumer))
        || (a.kind == Group && a.operation == "READ" && consumer
            && a.name == if r.group == "" then r.user + "-" else r.group)
        || (exists p :: p in r.permissions && p.kind == a.kind && p.name == a.name && a.operation in p.privileges))
  }

  /** The user may do this; rules on groups are prefix patterns. */
  ghost predicate Entitled(r: Request, b: Binding) { Asked(r, Listed(b)) && b.prefixed == b.kind.Group? }

  /** After an update, on literal names and old rules that read back as themselves, the user may do exactly
      that. */
  lemma RightsExact(bs: set<Binding>, r: Request, b: Binding)
    requires LiteralRequest(r) && forall x | x in OfUser(bs, r.user) :: Faithful(x)
    ensures b in OfUser(Updated(bs, r.user, Wanted(r)), r.user) <==> Entitled(r, b)
  {
    hide Contains, PatternName, Updated, Faithful, Wanted, OfUser, Addressed, Asked;
    WantedOwn(r);
    UpdateExact(bs, r.user, Wanted(r));
    WantedMeans(r, Listed(b));
    if b in AllAddressed(Wanted(r)) {
      var a :| a in Wanted(r) && Addressed(a) == b;
      AddressedLiteral(a);
      WantedMeans(r, a);
    }
    AddressedLiteral(Listed(b));
  }

  lemma AddressedLiteral(a: Acl)
    ensures Literal(a) ==> Listed(Addressed(a)) == a && Addressed(a).prefixed == a.kind.Group?
    ensures Literal(a) ==> Addressed(a) == Binding(a.kind, a.name, a.kind.Group?, a.user, a.operation)
  {
  }

  lemma WantedMeans(r: Request, a: Acl)
    ensures a in Wanted(r) <==> Asked(r, a)
    ensures LiteralRequest(r) && Asked(r, a) ==> Literal(a)
  {
    hide Contains, PatternName;
  }

  /** All of the user's rules read back as themselves. */
  ghost predicate AllFaithful(bs: set<Binding>, user: string) { forall b | b in OfUser(bs, user) :: Faithful(b) }

  /** The user may do exactly what the request entitles it to. */
  ghost predicate RightsAre(bs: set<Binding>, r: Request) {
    forall b :: b in OfUser(bs, r.user) <==> Entitled(r, b)
  }

  lemma RightsAll(bs: set<Binding>, r: Request)
    requires LiteralRequest(r) && AllFaithful(bs, r.user)
    ensures RightsAre(Updated(bs, r.user, Wanted(r)), r)
  {
    hide Entitled, Updated, Wanted, OfUser, Faithful, LiteralRequest;
    forall b ensures b in OfUser(Updated(bs, r.user, Wanted(r)), r.user) <==> Entitled(r, b) { RightsExact(bs, r, b); }
  }

  // ---- Updates that are cut short ----

  /** Rules between the old ones and the updated ones: additions come first, and nobody else's change. */
  ghost predicate OnTheWay(was: set<Binding>, now: set<Binding>, user: string, wanted: set<Acl>) {
    && was * Updated(was, user, wanted) <= now <= was + AllAddressed(wanted)
    && (was <= now || Updated(was, user, wanted) <= now)
    && forall other | other != user :: OfUser(now, other) == OfUser(was, other)
  }

  lemma UpdatedParts(was: set<Binding>, user: string, wanted: set<Acl>)
    ensures var current := Listing(OfUser(was, user));
            Updated(was, user, wanted) == was + AllAddressed(wanted - current) - AllAddressed(current - wanted)
  {
  }

  lemma StillThere(was: set<Binding>, user: string, wanted: set<Acl>)
    ensures OnTheWay(was, was, user, wanted)
  {
  }

  lemma Adding(was: set<Binding>, user: string, wanted: set<Acl>, added: set<Acl>)
    requires (forall a | a in wanted :: a.user == user) && added <= wanted
    ensures OnTheWay(was, was + AllAddressed(added), user, wanted)
  {
    hide Updated, Listed;
    assert AllAddressed(added) <= AllAddressed(wanted);
    assert forall b | b in AllAddressed(added) :: b.user == user;
  }

  lemma Removing(was: set<Binding>, user: string, wanted: set<Acl>, removed: set<Acl>)
    requires forall a | a in wanted :: a.user == user
    requires removed <= Listing(OfUser(was, user)) - wanted
    ensures var full := was + AllAddressed(wanted - Listing(OfUser(was, user)));
            OnTheWay(was, full - AllAddressed(removed), user, wanted)
  {
    var current := Listing(OfUser(was, user));
    assert forall a | a in current :: a.user == user;
    assert AllAddressed(removed) <= AllAddressed(current - wanted);
    hide Listing;
    assert forall b | b in AllAddressed(removed) || b in AllAddressed(wanted) :: b.user == user;
  }

  // ---- The commands ----

  /** Whether the next command goes through, and what is known of those after it. */
  predicate Goes(outcomes: seq<bool>) { outcomes == [] || outcomes[0] }

  function Later(outcomes: seq<bool>): seq<bool> { if outcomes == [] then [] else outcomes[1..] }

  /** The cluster as the charm's commands change it.  `outcomes` says of the next commands whether they
      go through; once it is used up they all do. */
  class AuthManager {
    var acls: set<Binding>
    var users: map<string, string>
    var outcomes: seq<bool>

    constructor (acls: set<Binding>, users: map<string, string>, outcomes: seq<bool>)
      ensures this.acls == acls && this.users == users && this.outcomes == outcomes
    {
      this.acls, this.users, this.outcomes := acls, users, outcomes;
    }

    method Command() returns (ok: bool)
      modifies this`outcomes
      ensures ok == Goes(old(outcomes)) && outcomes == Later(old(outcomes))
    {
      ok := true;
      if outcomes != [] {
        ok := outcomes[0];
        outcomes := outcomes[1..];
      }
    }

    method AddUser(user: string, password: string) returns (ok: bool)
      modifies this`users, this`outcomes
      ensures users == if ok then old(users)[user := password] else old(users)
      ensures ok == Goes(old(outcomes)) && outcomes == Later(old(outcomes))
    {
      ok := Command();
      if ok { users := users[user := password]; }
    }

    /** Deleting a user that does not exist is no failure. */
    method DeleteUser(user: string) returns (ok: bool)
      modifies this`users, this`outcomes
      ensures users == if ok then old(users) - {user} else old(users)
      ensures ok == Goes(old(outcomes)) && outcomes == Later(old(outcomes))
    {
      ok := Command();
      if ok { users := users - {user}; }
    }

    method AddAcl(a: Acl) returns (ok: bool)
      modifies this`acls, this`outcomes
      ensures acls == if ok then old(acls) + {Addressed(a)} else old(acls)
      ensures ok == Goes(old(outcomes)) && outcomes == Later(old(outcomes))
    {
      ok := Command();
      if ok { acls := acls + {Addressed(a)}; }
    }

    method RemoveAcl(a: Acl) returns (ok: bool)
      modifies this`acls, this`outcomes
      ensures acls == if ok then old(acls) - {Addressed(a)} else old(acls)
      ensures ok == Goes(old(outcomes)) && outcomes == Later(old(outcomes))
    {
      ok := Command();
      if ok { acls := acls - {Addressed(a)}; }
    }

    /** The user's rules, as far as the listing shows them. */
    method CurrentAcls(user: string) returns (ok: bool, current: set<Acl>)
      modifies this`outcomes
      ensures ok ==> current == Listing(OfUser(acls, user))
      ensures ok == Goes(old(outcomes)) && outcomes == Later(old(outcomes))
    {
      ok := Command();
      current := {};
      if ok { current := set a | a in Listing(acls) && a.user == user; }
      assert ok ==> current == Listing(OfUser(acls, user)) by {
        forall b | b in acls && b.user == user ensures Listed(b) in Listing(OfUser(acls, user)) {
          assert b in OfUser(acls, user);
        }
      }
    }

    /** The commands may stop working at any point.  What is common to the old and the new rules is there
        throughout, as additions come first; and when all commands go through the update is complete. */
    method UpdateUserAcls(r: Request) returns (ok: bool)
      modifies this`acls, this`outcomes
      ensures ok ==> acls == Updated(old(acls), r.user, Wanted(r))
      ensures OnTheWay(old(acls), acls, r.user, Wanted(r))
      ensures ok && LiteralRequest(r) && AllFaithful(old(acls), r.user) ==> RightsAre(acls, r)
      ensures old(outcomes) == [] ==> ok && outcomes == []
      ensures !Goes(old(outcomes)) ==> !ok && acls == old(acls) && outcomes == Later(old(outcomes))
    {
      ghost var was := acls;
      var wanted := Wanted(r);
      WantedOwn(r);
      var current;
      StillThere(was, r.user, wanted);
      ok, current := CurrentAcls(r.user);
      if !ok { return; }
      hide AllAddressed, OnTheWay, Wanted, OfUser, Updated, Listing, Addressed, AllFaithful, RightsAre,
        LiteralRequest;
      var adding := wanted - current;
      ghost var added: set<Acl> := {};
      while adding != {}
        invariant ok && adding + added == wanted - current && acls == was + AllAddressed(added)
        invariant old(outcomes) == [] ==> outcomes == []
        decreases adding
      {
        var a :| a in adding;
        ok := AddAcl(a);
        Adding(was, r.user, wanted, added);
        if !ok { return; }
        AddressedNext(added, a);
        adding, added := adding - {a}, added + {a};
      }
      assert added == wanted - current;
      ghost var full := acls;
      var removing := current - wanted;
      ghost var removed: set<Acl> := {};
      while removing != {}
        invariant ok && removing + removed == current - wanted && acls == full - AllAddressed(removed)
        invariant old(outcomes) == [] ==> outcomes == []
        decreases removing
      {
        var a :| a in removing;
        ok := RemoveAcl(a);
        Removing(was, r.user, wanted, removed);
        if !ok { return; }
        AddressedNext(removed, a);
        removing, removed := removing - {a}, removed + {a};
      }
      assert removed == current - wanted;
      Removing(was, r.user, wanted, removed);
      UpdatedParts(was, r.user, wanted);
      if LiteralRequest(r) && AllFaithful(was, r.user) { RightsAll(was, r); }
    }

    method RemoveAllUserAcls(user: string) returns (ok: bool)
      modifies this`acls, this`outcomes
      ensures ok ==> acls == Cleared(old(acls), user)
      ensures Cleared(old(acls), user) <= acls <= old(acls)
      ensures old(outcomes) == [] ==> ok && outcomes == []
      ensures !Goes(old(outcomes)) ==> !ok && acls == old(acls) && outcomes == Later(old(outcomes))
    {
      ghost var was := acls;
      var removing;
      ok, removing := CurrentAcls(user);
      if !ok { return; }
      ghost var current, removed: set<Acl> := removing, {};
      while removing != {}
        invariant ok && removing + removed == current && acls == was - AllAddressed(removed)
        invariant old(outcomes) == [] ==> outcomes == []
        decreases removing
      {
        var a :| a in removing;
        ok := RemoveAcl(a);
        if !ok { return; }
        AddressedNext(removed, a);
        removing, removed := removing - {a}, removed + {a};
      }
      assert removed == current;
    }
  }

  lemma AddressedNext(acls: set<Acl>, a: Acl)
    ensures AllAddressed(acls + {a}) == AllAddressed(acls) + {Addressed(a)}
  {
  }
}
