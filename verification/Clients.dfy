/** Credentials of client applications: the recorded passwords, the cluster's users and their access
    rules, through arrivals, departures and passes that fail half-way. */
module Clients {
  import opened Strings
  import opened Acls

  // ---- Usernames ----

  const ClientPrefix: string := "relation-"

  /** An empty request id stands for a missing one. */
  function Username(relation: nat, request: string): (user: string)
    ensures StartsWith(user, ClientPrefix)
  {
    ClientPrefix + Decimal(relation) + (if request == "" then "" else "-" + request)
  }

  /** Two requests never share a username. */
  lemma UsernameInjective(relation: nat, request: string, otherRelation: nat, otherRequest: string)
    requires Username(relation, request) == Username(otherRelation, otherRequest)
    ensures relation == otherRelation && request == otherRequest
  {
    var a, b := Decimal(relation), Decimal(otherRelation);
    var x := if request == "" then "" else "-" + request;
    var y := if otherRequest == "" then "" else "-" + otherRequest;
    assert Username(relation, request)[|ClientPrefix|..] == a + x;
    assert Username(otherRelation, otherRequest)[|ClientPrefix|..] == b + y;
    NoDash(a);
    NoDash(b);
    IndexAtEnd(a, '-', x);
    IndexAtEnd(b, '-', y);
    assert a == (a + x)[..|a|] && b == (b + y)[..|b|];
    DecimalInjective(relation, otherRelation);
    assert x == (a + x)[|a|..] && y == (b + y)[|b|..];
    assert request != "" ==> request == x[1..];
    assert otherRequest != "" ==> otherRequest == y[1..];
  }

  lemma UsernameForm()
    ensures Username(5, "") == "relation-5" && Username(5, "7f3a") == "relation-5-7f3a"
  {
    assert Decimal(5) == "5";
  }

  lemma NoDash(digits: string)
    requires AllDigits(digits)
    ensures '-' !in digits
  {
  }

  // ---- The accounts and what a pass does to them ----

  /** A request of a related application.  `live`: its relation is active and has units; `ready`: the
      cluster answers and any client certificate is in place; `drawn`: the password generated for it. */
  datatype Client = Client(request: Request, live: bool, ready: bool, drawn: string)

  datatype Accounts = Accounts(recorded: map<string, string>, users: map<string, string>, acls: set<Binding>)

  function Names(clients: seq<Client>): set<string> { set c | c in clients :: c.request.user }

  function Departed(recorded: map<string, string>, active: set<string>): set<string> {
    set u | u in recorded && StartsWith(u, ClientPrefix) && u !in active
  }

  /** The user has the same account in the cluster. */
  predicate SameUser(s: map<string, string>, t: map<string, string>, u: string) {
    (u in s <==> u in t) && (u in s ==> s[u] == t[u])
  }

  /** What removing all of a user's rules leaves of them. */
  function Leftover(mine: set<Binding>): set<Binding> { mine - AllAddressed(Listing(mine)) }

  /** What updating a user's rules makes of them. */
  function Granted(mine: set<Binding>, wanted: set<Acl>): set<Binding> {
    mine + AllAddressed(wanted - Listing(mine)) - AllAddressed(Listing(mine) - wanted)
  }

  lemma ClearedIs(bs: set<Binding>, user: string)
    ensures OfUser(Cleared(bs, user), user) == Leftover(OfUser(bs, user))
    ensures forall other | other != user :: OfUser(Cleared(bs, user), other) == OfUser(bs, other)
  {
  }

  lemma UpdatedIs(bs: set<Binding>, user: string, wanted: set<Acl>)
    requires forall a | a in wanted :: a.user == user
    ensures OfUser(Updated(bs, user, wanted), user) == Granted(OfUser(bs, user), wanted)
  {
  }

  /** A partial update of all rules, seen on the user's own. */
  lemma HalfDone(bs: set<Binding>, cs: set<Binding>, user: string, wanted: set<Acl>)
    requires forall a | a in wanted :: a.user == user
    requires bs * Updated(bs, user, wanted) <= cs <= bs + AllAddressed(wanted)
    requires bs <= cs || Updated(bs, user, wanted) <= cs
    ensures var was, now := OfUser(bs, user), OfUser(cs, user);
            && was * Granted(was, wanted) <= now <= was + AllAddressed(wanted)
            && (was <= now || Granted(was, wanted) <= now)
  {
    UpdatedIs(bs, user, wanted);
    hide Updated, Granted;
    assert OfUser(bs * Updated(bs, user, wanted), user) == OfUser(bs, user) * OfUser(Updated(bs, user, wanted), user);
  }

  /** Client `c` was set up on the way from `s` to `t`. */
  predicate SetUp(s: Accounts, t: Accounts, c: Client) {
    var u := c.request.user;
    && c.live && c.ready && c.request.topic != ""
    && u in t.recorded && u in t.users && t.recorded[u] == t.users[u] == c.drawn
    && OfUser(t.acls, u) == Granted(OfUser(s.acls, u), Wanted(c.request))
  }

  /** Client `c` was set up in part: it has its user, and its rules are on the way from the old to the new ones,
      additions first. */
  predicate HalfSetUp(s: Accounts, t: Accounts, c: Client) {
    var u, wanted := c.request.user, Wanted(c.request);
    var was, now := OfUser(s.acls, u), OfUser(t.acls, u);
    && c.live && c.ready && c.request.topic != ""
    && u in t.users && t.users[u] == c.drawn
    && was * Granted(was, wanted) <= now <= was + AllAddressed(wanted)
    && (was <= now || Granted(was, wanted) <= now)
  }

  /** The account and the rules of a name that a pass has no business with. */
  predicate Untouched(s: Accounts, t: Accounts, u: string) {
    && SameUser(s.recorded, t.recorded, u) && SameUser(s.users, t.users, u)
    && OfUser(t.acls, u) == OfUser(s.acls, u)
  }

  /** A pass that went through. */
  ghost predicate Reconciled(s: Accounts, t: Accounts, clients: seq<Client>) {
    && var departed := Departed(s.recorded, Names(clients));
    && (forall u | u in departed ::
         u !in t.recorded && u !in t.users && OfUser(t.acls, u) == Leftover(OfUser(s.acls, u)))
    && (forall u | u !in departed ::
         || Untouched(s, t, u)
         || (u !in s.recorded && exists c :: c in clients && c.request.user == u && SetUp(s, t, c)))
  }

  /** A pass that an exception cut short; what it had recorded is rolled back with the hook. */
  ghost predicate Interrupted(s: Accounts, t: Accounts, clients: seq<Client>) {
    && t.recorded == s.recorded
    && forall u ::
         || Untouched(s, t, u)
         || (u in Departed(s.recorded, Names(clients)) && (u in t.users ==> SameUser(s.users, t.users, u))
             && Leftover(OfUser(s.acls, u)) <= OfUser(t.acls, u) <= OfUser(s.acls, u))
         || (u !in s.recorded && exists c :: c in clients && c.request.user == u && HalfSetUp(s, t, c))
  }

  /** The client is to be set up, its user can be added, and its rules cannot even be listed. */
  predicate Stumbles(c: Client, recorded: map<string, string>, outcomes: seq<bool>) {
    && c.live && c.ready && c.request.topic != "" && c.request.user !in recorded
    && Goes(outcomes) && !Goes(Later(outcomes))
  }

  // ---- The provider ----

  class KafkaProvider {
    const auth: AuthManager
    var recorded: map<string, string>

    constructor (auth: AuthManager, recorded: map<string, string>)
      ensures this.auth == auth && this.recorded == recorded
    {
      this.auth, this.recorded := auth, recorded;
    }

    ghost function State(): Accounts reads this, auth { Accounts(recorded, auth.users, auth.acls) }

    /** Sets up a client that has no recorded password yet.  A user that cannot be added is left for the
        next pass; rules that cannot be written are an exception. */
    method HandleClientRequest(c: Client) returns (ok: bool)
      modifies this`recorded, auth
      ensures ok ==> State() == old(State()) || (c.request.user !in old(recorded) && SetUp(old(State()), State(), c))
      ensures forall u | u != c.request.user :: Untouched(old(State()), State(), u)
      ensures !ok ==> recorded == old(recorded) && c.request.user !in recorded && HalfSetUp(old(State()), State(), c)
      ensures old(auth.outcomes) == [] ==> ok && auth.outcomes == []
      ensures Stumbles(c, old(recorded), old(auth.outcomes)) ==>
                !ok && auth.acls == old(auth.acls) && auth.outcomes == Later(Later(old(auth.outcomes)))
      ensures old(auth.outcomes) == [] && c.live && c.ready && c.request.topic != "" ==> c.request.user in recorded
    {
      ok := true;
      var user := c.request.user;
      if !c.live || c.request.topic == "" || user in recorded || !c.ready { return; }
      var added := auth.AddUser(user, c.drawn);
      if !added { return; }
      ghost var bs := auth.acls;
      WantedOwn(c.request);
      UpdatedIs(bs, user, Wanted(c.request));
      ok := auth.UpdateUserAcls(c.request);
      HalfDone(bs, auth.acls, user, Wanted(c.request));
      if !ok { return; }
      recorded := recorded[user := c.drawn];
    }

    /** Removes the rules, the user and the record of clients that are gone. */
    method RemoveBrokenClients(active: set<string>) returns (ok: bool)
      modifies this`recorded, auth
      ensures var departed := Departed(old(recorded), active);
              && (forall u | u !in departed :: Untouched(old(State()), State(), u))
              && (ok ==> forall u | u in departed ::
                   u !in recorded && u !in auth.users && OfUser(auth.acls, u) == Leftover(OfUser(old(auth.acls), u)))
              && (!ok ==> forall u | u in departed :: (u in auth.users ==> SameUser(old(auth.users), auth.users, u))
                            && Leftover(OfUser(old(auth.acls), u)) <= OfUser(auth.acls, u) <= OfUser(old(auth.acls), u))
      ensures old(auth.outcomes) == [] ==> ok && auth.outcomes == []
      ensures Departed(old(recorded), active) == {} ==>
                ok && State() == old(State()) && auth.outcomes == old(auth.outcomes)
    {
      ok := true;
      ghost var s := State();
      ghost var departed := Departed(recorded, active);
      var todo := Departed(recorded, active);
      assert forall u :: Leftover(OfUser(s.acls, u)) <= OfUser(s.acls, u);
      hide OfUser, Leftover, Departed;
      while todo != {}
        invariant ok && todo <= departed && Removed(s, State(), departed - todo)
        invariant old(auth.outcomes) == [] ==> auth.outcomes == []
        invariant departed == {} ==> State() == s && auth.outcomes == old(auth.outcomes)
        decreases todo
      {
        var user :| user in todo;
        ghost var before, left := State(), departed - todo;
        ok := auth.RemoveAllUserAcls(user);
        PartlyCleared(before.acls, auth.acls, user);
        assert OfUser(before.acls, user) == OfUser(s.acls, user);
        forall u | u !in departed ensures Untouched(s, State(), u) { assert Untouched(s, before, u); }
        if !ok { return; }
        ClearedIs(before.acls, user);
        ok := auth.DeleteUser(user);
        if !ok { return; }
        recorded := recorded - {user};
        todo := todo - {user};
        RemovedNext(s, before, State(), left, user);
        assert departed - todo == left + {user};
      }
      assert departed - todo == departed;
    }

    /** One pass over the related applications. */
    method Reconcile(clients: seq<Client>) returns (ok: bool)
      modifies this`recorded, auth
      ensures ok ==> Reconciled(old(State()), State(), clients)
      ensures !ok ==> Interrupted(old(State()), State().(recorded := old(recorded)), clients)
      ensures old(auth.outcomes) == [] ==>
              ok && forall c | c in clients && c.live && c.ready && c.request.topic != "" :: c.request.user in recorded
      ensures (&& clients != [] && Departed(old(recorded), Names(clients)) == {}
               && Stumbles(clients[0], old(recorded), old(auth.outcomes)))
              ==> !ok && auth.outcomes == Later(Later(old(auth.outcomes)))
                  && HalfSetUp(old(State()), State(), clients[0])
    {
      ghost var s := State();
      ok := RemoveBrokenClients(Names(clients));
      if !ok { return; }
      ghost var m, left := State(), auth.outcomes;
      for i := 0 to |clients|
        invariant ok && PartlyDone(m, State(), clients[..i])
        invariant i == 0 ==> State() == m && auth.outcomes == left
        invariant i > 0 ==> !Stumbles(clients[0], m.recorded, left)
        invariant old(auth.outcomes) == [] ==> auth.outcomes == []
        invariant old(auth.outcomes) == [] ==>
                  forall c | c in clients[..i] && c.live && c.ready &&
                  c.request.topic != "" :: c.request.user in recorded
      {
        ghost var before := State();
        ok := HandleClientRequest(clients[i]);
        assert clients[..i + 1] == clients[..i] + [clients[i]];
        if !ok {
          InterruptedAt(s, m, before, State(), clients, i);
          return;
        }
        PartlyDoneNext(m, before, State(), clients[..i], clients[i]);
        forall c | old(auth.outcomes) == [] && c in clients[..i + 1] && c.live && c.ready && c.request.topic != ""
          ensures c.request.user in recorded
        {
          assert Untouched(before, State(), c.request.user) || c.request.user == clients[i].request.user;
        }
      }
      assert clients[..|clients|] == clients;
      DoneFromParts(s, m, State(), clients);
    }

    /** The hook: an exception undoes what was recorded, and the cluster stays as it is. */
    method Hook(clients: seq<Client>) returns (ok: bool)
      modifies this`recorded, auth
      ensures if ok then Reconciled(old(State()), State(), clients) else Interrupted(old(State()), State(), clients)
      ensures old(auth.outcomes) == [] ==> ok
      ensures (&& clients != [] && Departed(old(recorded), Names(clients)) == {}
               && Stumbles(clients[0], old(recorded), old(auth.outcomes)))
              ==> !ok && auth.outcomes == Later(Later(old(auth.outcomes)))
                  && HalfSetUp(old(State()), State(), clients[0])
    {
      var saved := recorded;
      ok := Reconcile(clients);
      if !ok { recorded := saved; }
    }

    /** After a restart: users that the cluster has lost come back with their recorded passwords. */
    method UpdateCredentialsCache(clients: seq<Client>) returns (ok: bool)
      modifies auth
      ensures recorded == old(recorded) && auth.acls == old(auth.acls)
      ensures forall u :: SameUser(old(auth.users), auth.users, u)
                          || (u !in old(auth.users) && u in recorded && u in auth.users && auth.users[u] == recorded[u])
      ensures ok ==> forall c | c in clients && c.request.user in recorded :: c.request.user in auth.users
      ensures old(auth.outcomes) == [] ==> ok && auth.outcomes == []
    {
      ok := true;
      var known := auth.users;
      for i := 0 to |clients|
        invariant ok && auth.acls == old(auth.acls)
        invariant old(auth.outcomes) == [] ==> auth.outcomes == []
        invariant forall u :: SameUser(old(auth.users), auth.users, u)
                              || (u !in old(auth.users) && u in recorded && u in auth.users &&
                                 auth.users[u] == recorded[u])
        invariant forall c | c in clients[..i] && c.request.user in recorded :: c.request.user in auth.users
      {
        var user := clients[i].request.user;
        if user in recorded && user !in known {
          ok := auth.AddUser(user, recorded[user]);
          if !ok { return; }
        }
      }
    }
  }

  lemma PartlyCleared(bs: set<Binding>, cs: set<Binding>, user: string)
    requires Cleared(bs, user) <= cs <= bs
    ensures Leftover(OfUser(bs, user)) <= OfUser(cs, user) <= OfUser(bs, user)
    ensures forall other | other != user :: OfUser(cs, other) == OfUser(bs, other)
  {
    ClearedIs(bs, user);
    forall other | other != user ensures OfUser(cs, other) == OfUser(bs, other) {
      assert OfUser(Cleared(bs, user), other) == OfUser(bs, other);
      assert forall b | b in OfUser(bs, other) :: b in OfUser(Cleared(bs, user), other) && b in cs;
    }
  }

  /** These names have been removed, and the others left alone. */
  ghost predicate Removed(s: Accounts, t: Accounts, gone: set<string>) {
    && (forall u | u in gone :: u !in t.recorded && u !in t.users && OfUser(t.acls, u) == Leftover(OfUser(s.acls, u)))
    && (forall u | u !in gone :: Untouched(s, t, u))
  }

  lemma RemovedNext(s: Accounts, b: Accounts, t: Accounts, gone: set<string>, user: string)
    requires Removed(s, b, gone) && user !in gone
    requires t.recorded == b.recorded - {user} && t.users == b.users - {user}
    requires OfUser(t.acls, user) == Leftover(OfUser(b.acls, user))
    requires forall other | other != user :: OfUser(t.acls, other) == OfUser(b.acls, other)
    ensures Removed(s, t, gone + {user})
  {
    hide OfUser, Leftover;
    assert Untouched(s, b, user);
    forall u | u !in gone + {user} ensures Untouched(s, t, u) { assert Untouched(s, b, u); }
  }

  /** The clients seen so far have been set up or left alone. */
  ghost predicate PartlyDone(m: Accounts, t: Accounts, clients: seq<Client>) {
    forall u :: Untouched(m, t, u) ||
      (u !in m.recorded && exists c :: c in clients && c.request.user == u && SetUp(m, t, c))
  }

  lemma PartlyDoneNext(m: Accounts, b: Accounts, t: Accounts, clients: seq<Client>, c: Client)
    requires PartlyDone(m, b, clients)
    requires t == b || (c.request.user !in b.recorded && SetUp(b, t, c))
    requires forall u | u != c.request.user :: Untouched(b, t, u)
    ensures PartlyDone(m, t, clients + [c])
  {
    hide Granted, Wanted, OfUser;
    forall u ensures Untouched(m, t, u) ||
      (u !in m.recorded && exists x :: x in clients + [c] && x.request.user == u && SetUp(m, t, x)) {
      assert Untouched(m, b, u) || exists x :: x in clients && x.request.user == u && SetUp(m, b, x);
      if u == c.request.user && t != b {
        assert c in clients + [c] && SetUp(m, t, c);
      } else if !Untouched(m, b, u) {
        var x :| x in clients && x.request.user == u && SetUp(m, b, x);
        assert t == b || Untouched(b, t, u);
        assert x in clients + [c] && SetUp(m, t, x);
      } else {
        assert t == b || Untouched(b, t, u);
      }
    }
  }

  lemma DoneFromParts(s: Accounts, m: Accounts, t: Accounts, clients: seq<Client>)
    requires var departed := Departed(s.recorded, Names(clients));
             && (forall u | u !in departed :: Untouched(s, m, u))
             && (forall u | u in departed ::
                  u !in m.recorded && u !in m.users && OfUser(m.acls, u) == Leftover(OfUser(s.acls, u)))
    requires PartlyDone(m, t, clients)
    ensures Reconciled(s, t, clients)
  {
    hide Granted, Wanted, OfUser, Leftover;
    var departed := Departed(s.recorded, Names(clients));
    forall u | u in departed ensures Untouched(m, t, u) {
      assert forall c :: c in clients && c.request.user == u ==> u in Names(clients);
    }
    forall u | u !in departed && !Untouched(s, t, u)
      ensures u !in s.recorded && exists c :: c in clients && c.request.user == u && SetUp(s, t, c)
    {
      var c :| c in clients && c.request.user == u && SetUp(m, t, c);
      assert SetUp(s, t, c);
    }
  }

  lemma InterruptedAt(s: Accounts, m: Accounts, b: Accounts, t: Accounts, clients: seq<Client>, i: nat)
    requires i < |clients| && PartlyDone(m, b, clients[..i])
    requires var departed := Departed(s.recorded, Names(clients));
             && (forall u | u !in departed :: Untouched(s, m, u))
             && (forall u | u in departed ::
                  u !in m.recorded && u !in m.users && OfUser(m.acls, u) == Leftover(OfUser(s.acls, u)))
    requires forall u | u != clients[i].request.user :: Untouched(b, t, u)
    requires clients[i].request.user !in b.recorded && HalfSetUp(b, t, clients[i])
    ensures Interrupted(s, t.(recorded := s.recorded), clients)
  {
    hide Granted, Wanted, OfUser, Listing;
    var r := t.(recorded := s.recorded);
    var departed := Departed(s.recorded, Names(clients));
    forall u
      ensures || Untouched(s, r, u)
              || (u in departed && (u in r.users ==> SameUser(s.users, r.users, u))
                  && Leftover(OfUser(s.acls, u)) <= OfUser(r.acls, u) <= OfUser(s.acls, u))
              || (u !in s.recorded && exists c :: c in clients && c.request.user == u && HalfSetUp(s, r, c))
    {
      assert forall c :: c in clients && c.request.user == u ==> u in Names(clients);
      assert Untouched(m, b, u) || exists c :: c in clients[..i] && c.request.user == u && SetUp(m, b, c);
      if u == clients[i].request.user {
        assert clients[i] in clients;
        assert Untouched(m, b, u) && Untouched(s, m, u);
        assert HalfSetUp(s, r, clients[i]);
      } else if !Untouched(m, b, u) {
        var c :| c in clients[..i] && c.request.user == u && SetUp(m, b, c);
        assert c in clients && Untouched(b, t, u) && Untouched(s, m, u);
        assert SetUp(s, t, c);
        SetUpIsHalf(s, t, c);
        assert HalfSetUp(s, r, c);
      } else {
        assert Untouched(b, t, u);
      }
    }
  }

  lemma SetUpIsHalf(s: Accounts, t: Accounts, c: Client)
    requires SetUp(s, t, c)
    ensures HalfSetUp(s, t, c)
  {
    hide Wanted, OfUser, Listing;
  }

  // ---- Whole runs ----

  /** What the charm can see of the world: its accounts, the related clients, and the names that were
      related once and are not any more. */
  datatype World = World(accounts: Accounts, clients: seq<Client>, gone: set<string>)

  /** What happens between two states: the set of clients changes, a pass goes through or is cut short,
      or a restart brings lost users back.  A name that has gone does not return: relation ids are not
      used twice. */
  ghost predicate Next(v: World, w: World) {
    || (w.accounts == v.accounts && w.gone == v.gone + (Names(v.clients) - Names(w.clients))
        && forall c | c in w.clients :: StartsWith(c.request.user, ClientPrefix) && c.request.user !in v.gone)
    || (w.clients == v.clients && w.gone == v.gone && Reconciled(v.accounts, w.accounts, v.clients))
    || (w.clients == v.clients && w.gone == v.gone && Interrupted(v.accounts, w.accounts, v.clients))
    || (w.clients == v.clients && w.gone == v.gone && Restored(v.accounts, w.accounts))
  }

  /** What `UpdateCredentialsCache` does. */
  ghost predicate Restored(s: Accounts, t: Accounts) {
    && t.recorded == s.recorded && t.acls == s.acls
    && forall u :: SameUser(s.users, t.users, u)
                   || (u !in s.users && u in s.recorded && u in t.users && t.users[u] == s.recorded[u])
  }

  /** The credentials of every client that has not left: recorded means usable as recorded. */
  ghost predicate Usable(w: World) {
    && (forall c | c in w.clients :: StartsWith(c.request.user, ClientPrefix) && c.request.user !in w.gone)
    && (forall u | u in w.accounts.recorded && StartsWith(u, ClientPrefix) :: u in Names(w.clients) || u in w.gone)
    && (forall u | u in w.accounts.recorded && StartsWith(u, ClientPrefix) && u !in w.gone ::
          u in w.accounts.users && w.accounts.users[u] == w.accounts.recorded[u])
  }

  lemma NextUsable(v: World, w: World)
    requires Usable(v) && Next(v, w)
    ensures Usable(w)
    ensures forall u | u in v.accounts.recorded && StartsWith(u, ClientPrefix) && u !in w.gone ::
              u in w.accounts.recorded && w.accounts.recorded[u] == v.accounts.recorded[u]
  {
    hide OfUser, Leftover, Granted, Wanted;
    var s, t := v.accounts, w.accounts;
    if Reconciled(s, t, v.clients) && w.clients == v.clients && w.gone == v.gone {
      forall u | StartsWith(u, ClientPrefix) && u !in w.gone && u in t.recorded
        ensures u in Names(w.clients) && u in t.users && t.users[u] == t.recorded[u]
      {
        assert Untouched(s, t, u) || u in Departed(s.recorded, Names(v.clients)) || exists c ::
            c in v.clients && c.request.user == u && SetUp(s, t, c);
        assert forall c :: c in v.clients && c.request.user == u ==> u in Names(v.clients);
      }
      forall u | u in s.recorded && StartsWith(u, ClientPrefix) && u !in w.gone ensures Untouched(s, t, u) {
        assert u !in Departed(s.recorded, Names(v.clients));
      }
    } else if Interrupted(s, t, v.clients) && w.clients == v.clients && w.gone == v.gone {
      forall u | u in s.recorded && StartsWith(u, ClientPrefix) && u !in w.gone ensures Untouched(s, t, u) {
        assert u !in Departed(s.recorded, Names(v.clients));
      }
    }
  }

  ghost predicate History(worlds: seq<World>) {
    worlds != [] && forall i: nat | i + 1 < |worlds| :: Next(worlds[i], worlds[i + 1])
  }

  lemma {:induction false} HistoryUsable(worlds: seq<World>, i: nat)
    requires History(worlds) && Usable(worlds[0]) && i < |worlds|
    ensures Usable(worlds[i])
    decreases i
  {
    if i > 0 {
      HistoryUsable(worlds, i - 1);
      assert Next(worlds[i - 1], worlds[i - 1 + 1]);
      NextUsable(worlds[i - 1], worlds[i]);
    }
  }

  lemma {:induction false} GoneGrows(worlds: seq<World>, i: nat, j: nat)
    requires History(worlds) && i <= j < |worlds|
    ensures worlds[i].gone <= worlds[j].gone
    decreases j - i
  {
    if i < j {
      GoneGrows(worlds, i, j - 1);
      assert Next(worlds[j - 1], worlds[j - 1 + 1]);
    }
  }

  /** Through arrivals, departures, passes that go through or are cut short anywhere, and restarts: a
      client with a recorded password is a user of the cluster with that password at every moment, and
      the password stays the same until the client leaves. */
  lemma {:induction false} PasswordsHold(worlds: seq<World>, i: nat, j: nat, u: string)
    requires History(worlds) && Usable(worlds[0]) && i <= j < |worlds|
    requires u in worlds[i].accounts.recorded && StartsWith(u, ClientPrefix) && u !in worlds[j].gone
    ensures u in worlds[j].accounts.recorded && worlds[j].accounts.recorded[u] == worlds[i].accounts.recorded[u]
    ensures u in worlds[j].accounts.users && worlds[j].accounts.users[u] == worlds[i].accounts.recorded[u]
    decreases j - i
  {
    hide Next, StartsWith;
    HistoryUsable(worlds, j);
    if i < j {
      GoneGrows(worlds, j - 1, j);
      PasswordsHold(worlds, i, j - 1, u);
      HistoryUsable(worlds, j - 1);
      assert Next(worlds[j - 1], worlds[j - 1 + 1]);
      NextUsable(worlds[j - 1], worlds[j]);
    }
  }

  // ---- After a pass that went through ----

  /** Recorded client names are active ones.  A name that is not active has no user exactly when it was
      recorded, or had none; it keeps the rules that its listing does not address, or all if it was not
      recorded. */
  lemma DepartedAreGone(s: Accounts, t: Accounts, clients: seq<Client>, u: string)
    requires Reconciled(s, t, clients) && StartsWith(u, ClientPrefix) && u !in Names(clients)
    ensures u !in t.recorded
    ensures u !in t.users <==> u in s.recorded || u !in s.users
    ensures OfUser(t.acls, u) == if u in s.recorded then Leftover(OfUser(s.acls, u)) else OfUser(s.acls, u)
    ensures u in s.recorded ==> (OfUser(t.acls, u) == {} <==> forall b | b in OfUser(s.acls, u) :: Faithful(b))
  {
    ClearedIs(s.acls, u);
    ClearedExactly(s.acls, u);
    hide OfUser, Leftover, Granted, Wanted;
    assert forall c :: c in clients && c.request.user == u ==> u in Names(clients);
    if u in s.recorded {
      assert u in Departed(s.recorded, Names(clients));
    } else {
      assert Untouched(s, t, u) || exists c :: c in clients && c.request.user == u && SetUp(s, t, c);
    }
  }

  /** With all client users recorded, a pass that goes through leaves no user that is not. */
  lemma NoOrphans(s: Accounts, t: Accounts, clients: seq<Client>)
    requires Reconciled(s, t, clients)
    requires forall u | u in s.users && StartsWith(u, ClientPrefix) :: u in s.recorded
    ensures forall u | u in t.users && StartsWith(u, ClientPrefix) :: u in t.recorded && u in Names(clients)
  {
    hide OfUser, Leftover, Granted, Wanted;
    forall u | u in t.users && StartsWith(u, ClientPrefix) ensures u in t.recorded && u in Names(clients) {
      assert forall c :: c in clients && c.request.user == u ==> u in Names(clients);
      assert u in Departed(s.recorded, Names(clients)) || Untouched(s, t, u) || exists c ::
          c in clients && c.request.user == u && SetUp(s, t, c);
    }
  }

  // ---- Orphans ----

  /** A run that ends in an orphan: the hook adds the client's user and fails at its rules, so that nothing is
      recorded; the client leaves, and the next pass, in which every command goes through, leaves the user. */
  method OrphanArises(c: Client, accounts: Accounts) returns (provider: KafkaProvider, first: bool, second: bool)
    requires c.live && c.ready && c.request.topic != "" && c.request.user !in accounts.recorded
    requires forall u | u in accounts.recorded :: !StartsWith(u, ClientPrefix)
    ensures !first && second
    ensures c.request.user in provider.auth.users && c.request.user !in provider.recorded
  {
    var auth := new AuthManager(accounts.acls, accounts.users, [true, false]);
    provider := new KafkaProvider(auth, accounts.recorded);
    assert Later(Later(auth.outcomes)) == [];
    first := provider.Hook([c]);
    ghost var m := provider.State();
    assert m.recorded == accounts.recorded;
    second := provider.Hook([]);
    assert c.request.user !in Departed(m.recorded, Names([]));
    assert Untouched(m, provider.State(), c.request.user);
  }

  /** A pass over the client was cut short after its user had been added. */
  ghost predicate CutShort(v: World, w: World, u: string) {
    && w.clients == v.clients && w.gone == v.gone && Interrupted(v.accounts, w.accounts, v.clients)
    && u !in v.accounts.recorded
    && exists c :: c in v.clients && c.request.user == u && HalfSetUp(v.accounts, w.accounts, c)
  }

  ghost predicate WentThrough(v: World, w: World) {
    w.clients == v.clients && w.gone == v.gone && Reconciled(v.accounts, w.accounts, v.clients)
  }

  /** A name that stays unrecorded gets a user in passes that are cut short only, and keeps it. */
  lemma UnrecordedUser(v: World, w: World, u: string)
    requires Next(v, w) && u !in v.accounts.recorded && u !in w.accounts.recorded
    ensures u in w.accounts.users <==> u in v.accounts.users || CutShort(v, w, u)
  {
    hide OfUser, Leftover, Granted, Wanted, AllAddressed;
    var s, t := v.accounts, w.accounts;
    assert u !in Departed(s.recorded, Names(v.clients));
    if Reconciled(s, t, v.clients) && w.clients == v.clients && w.gone == v.gone {
      assert Untouched(s, t, u);
    } else if Interrupted(s, t, v.clients) && w.clients == v.clients && w.gone == v.gone {
      assert Untouched(s, t, u) || exists c :: c in v.clients && c.request.user == u && HalfSetUp(s, t, c);
    }
  }

  /** A name that has gone is not recorded again; unrecorded, it is left alone; recorded, it goes with its user. */
  lemma GoneStep(v: World, w: World, u: string)
    requires Next(v, w) && Usable(v) && u in v.gone
    ensures u in w.accounts.recorded ==> u in v.accounts.recorded
    ensures u !in v.accounts.recorded ==> Untouched(v.accounts, w.accounts, u)
    ensures u in v.accounts.recorded && u !in w.accounts.recorded ==> u !in w.accounts.users
    ensures WentThrough(v, w) && StartsWith(u, ClientPrefix) ==> u !in w.accounts.recorded
  {
    hide OfUser, Leftover, Granted, Wanted, AllAddressed;
    var s, t := v.accounts, w.accounts;
    assert forall c :: c in v.clients && c.request.user == u ==> u in Names(v.clients);
    assert u !in Names(v.clients);
    if Reconciled(s, t, v.clients) && w.clients == v.clients && w.gone == v.gone {
      assert Untouched(s, t, u) || u in Departed(s.recorded, Names(v.clients));
    } else if Interrupted(s, t, v.clients) && w.clients == v.clients && w.gone == v.gone {
      assert Untouched(s, t, u) || u in Departed(s.recorded, Names(v.clients));
    }
  }

  /** After a client has left: an unrecorded user stays with its password and rules, whatever happens. */
  lemma {:induction false} GoneLater(worlds: seq<World>, i: nat, j: nat, u: string)
    requires History(worlds) && Usable(worlds[0]) && i <= j < |worlds| && u in worlds[i].gone
    ensures u in worlds[j].accounts.recorded ==> u in worlds[i].accounts.recorded
    ensures u !in worlds[i].accounts.recorded ==> Untouched(worlds[i].accounts, worlds[j].accounts, u)
    ensures u in worlds[i].accounts.recorded ==> u in worlds[j].accounts.recorded || u !in worlds[j].accounts.users
    decreases j - i
  {
    hide Next, Usable;
    if i < j {
      GoneLater(worlds, i, j - 1, u);
      GoneGrows(worlds, i, j - 1);
      HistoryUsable(worlds, j - 1);
      assert Next(worlds[j - 1], worlds[j - 1 + 1]);
      GoneStep(worlds[j - 1], worlds[j], u);
    }
  }

  lemma UnrecordedBefore(worlds: seq<World>, m: nat, i: nat, u: string)
    requires History(worlds) && Usable(worlds[0]) && m <= i < |worlds| && StartsWith(u, ClientPrefix)
    requires u !in worlds[i].gone && u !in worlds[i].accounts.recorded
    ensures u !in worlds[m].accounts.recorded
  {
    hide Next, Usable, StartsWith;
    if u in worlds[m].accounts.recorded { PasswordsHold(worlds, m, i, u); }
  }

  lemma {:induction false} AddedInVain(worlds: seq<World>, n: nat, u: string)
    requires History(worlds) && n < |worlds| && forall m: nat | m <= n :: u !in worlds[m].accounts.recorded
    requires u !in worlds[0].accounts.users
    ensures u in worlds[n].accounts.users <==> exists m: nat :: m < n && CutShort(worlds[m], worlds[m + 1], u)
    decreases n
  {
    hide Next, CutShort;
    if n > 0 {
      AddedInVain(worlds, n - 1, u);
      assert Next(worlds[n - 1], worlds[n - 1 + 1]);
      UnrecordedUser(worlds[n - 1], worlds[n], u);
      assert CutShort(worlds[n - 1], worlds[n - 1 + 1], u) <==> CutShort(worlds[n - 1], worlds[n], u);
    }
  }

  /** The user of a client that came and left, at step `i`, is there after a later pass that went through if
      and only if the client was never recorded and some pass over it was cut short after adding its user. */
  lemma OrphanExactly(worlds: seq<World>, i: nat, k: nat, j: nat, u: string)
    requires History(worlds) && Usable(worlds[0]) && StartsWith(u, ClientPrefix)
    requires u !in worlds[0].accounts.users && u !in worlds[0].accounts.recorded
    requires 0 < i <= k < j < |worlds| && u !in worlds[i - 1].gone && u in worlds[i].gone
    requires WentThrough(worlds[k], worlds[k + 1])
    ensures u in worlds[j].accounts.users <==>
              && u !in worlds[i].accounts.recorded
              && exists m: nat :: m < i && CutShort(worlds[m], worlds[m + 1], u)
  {
    hide Next, CutShort, Usable, WentThrough, StartsWith;
    assert Next(worlds[i - 1], worlds[i - 1 + 1]);
    Leaves(worlds[i - 1], worlds[i], u);
    GoneLater(worlds, i, j, u);
    if u in worlds[i].accounts.recorded {
      GoneGrows(worlds, i, k);
      GoneGrows(worlds, i, k + 1);
      HistoryUsable(worlds, k);
      assert Next(worlds[k], worlds[k + 1]);
      GoneStep(worlds[k], worlds[k + 1], u);
      GoneLater(worlds, k + 1, j, u);
    } else {
      forall m: nat | m <= i - 1 ensures u !in worlds[m].accounts.recorded { UnrecordedBefore(worlds, m, i - 1, u); }
      AddedInVain(worlds, i - 1, u);
      assert !CutShort(worlds[i - 1], worlds[i - 1 + 1], u) by { NotCutShort(worlds[i - 1], worlds[i], u); }
    }
  }

  /** A name goes in a step that leaves the accounts alone. */
  lemma Leaves(v: World, w: World, u: string)
    requires Next(v, w) && u !in v.gone && u in w.gone
    ensures w.accounts == v.accounts
  {
    hide Interrupted, Reconciled, Restored;
  }

  lemma NotCutShort(v: World, w: World, u: string)
    requires u !in v.gone && u in w.gone
    ensures !CutShort(v, w, u)
  {
    hide Interrupted;
  }
}
