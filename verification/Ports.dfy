/** Listener ports: the check of the configured extra listeners, and the ports and names that all
    listeners get. */
module Ports {
  import opened Strings

  // ---- The check of `extra_listeners` ----

  datatype Verdict = Accepted(listeners: seq<string>) | NoPort | OutOfRange | TooClose | NotUnique

  /** A listener entry carries a port if it holds a colon. */
  predicate HasPort(entry: string) { ':' in entry }

  function PortText(entry: string): string
    requires HasPort(entry)
  {
    assert IndexOf(entry, ':') < |entry|;
    Split(entry, ':')[1]
  }

  predicate IsNumber(s: string) { s != "" && AllDigits(s) }

  predicate PortsParse(entries: seq<string>) {
    forall e | e in entries && HasPort(e) :: IsNumber(PortText(e))
  }

  /** The ports of the entries that carry one, in order. */
  function PortsOf(entries: seq<string>): seq<nat>
    requires PortsParse(entries)
  {
    if entries == [] then []
    else
      var front, e := entries[..|entries| - 1], entries[|entries| - 1];
      PortsOf(front) + if HasPort(e) then [Value(PortText(e))] else []
  }

  /** An entry is a name, perhaps with a port after a colon; a port is digits, and not none. */
  lemma EntryMeans(name: string, digits: string)
    requires ':' !in name && ':' !in digits
    ensures !HasPort(name) && HasPort(name + ":" + digits) && PortText(name + ":" + digits) == digits
    ensures !IsNumber("") && (digits != "" && AllDigits(digits) ==> IsNumber(digits))
  {
    SplitAt(name, ':', digits);
    SplitOne(name, ':');
    SplitOne(digits, ':');
  }

  predicate NoNumber(e: string) { HasPort(e) && !IsNumber(PortText(e)) }

  predicate BadPort(e: string) { HasPort(e) && IsNumber(PortText(e)) && !(20000 < Value(PortText(e)) < 50000) }

  /** Entry `i` is the first one to complain about. */
  ghost predicate FirstBad(entries: seq<string>, i: nat) {
    && i < |entries| && (NoNumber(entries[i]) || BadPort(entries[i]))
    && forall j: nat | j < i :: !NoNumber(entries[j]) && !BadPort(entries[j])
  }

  predicate InRange(ports: seq<nat>) { forall p | p in ports :: 20000 < p < 50000 }

  /** Each port lies more than 100 above the one before. */
  predicate Rising(ports: seq<nat>) { forall i: nat | i + 1 < |ports| :: ports[i] + 100 < ports[i + 1] }

  lemma {:induction false} RisingApart(ports: seq<nat>, i: nat, j: nat)
    requires Rising(ports) && i < j < |ports|
    ensures ports[i] + 100 < ports[j]
    decreases j - i
  {
    assert ports[j - 1] + 100 < ports[j - 1 + 1];
    if i < j - 1 { RisingApart(ports, i, j - 1); }
  }

  /** The ports of the entries, or the first complaint about one of them. */
  method CollectPorts(entries: seq<string>) returns (v: Verdict, ports: seq<nat>)
    ensures v.Accepted? || v.NoPort? || v.OutOfRange?
    ensures v.Accepted? <==> PortsParse(entries) && InRange(PortsOf(entries))
    ensures v.Accepted? ==> ports == PortsOf(entries)
    ensures v.NoPort? ==> exists i: nat :: FirstBad(entries, i) && NoNumber(entries[i])
    ensures v.OutOfRange? ==> exists i: nat :: FirstBad(entries, i) && BadPort(entries[i])
  {
    ports := [];
    for i := 0 to |entries|
      invariant PortsParse(entries[..i]) && ports == PortsOf(entries[..i]) && InRange(ports)
      invariant forall j: nat | j < i :: !NoNumber(entries[j]) && !BadPort(entries[j])
    {
      hide PortText, HasPort, IsNumber, Value;
      var e := entries[i];
      PortsNext(entries, i);
      if HasPort(e) {
        if !IsNumber(PortText(e)) {
          assert FirstBad(entries, i);
          return NoPort, [];
        }
        var port := Value(PortText(e));
        if !(20000 < port < 50000) {
          OutOfRangeStays(entries, i + 1, port);
          assert FirstBad(entries, i);
          return OutOfRange, [];
        }
        ports := ports + [port];
      }
    }
    assert entries[..|entries|] == entries;
    return Accepted(entries), ports;
  }

  lemma PortsNext(entries: seq<string>, i: nat)
    requires i < |entries| && PortsParse(entries[..i])
    ensures PortsParse(entries) && HasPort(entries[i]) ==> IsNumber(PortText(entries[i]))
    ensures (HasPort(entries[i]) ==> IsNumber(PortText(entries[i]))) ==> PortsParse(entries[..i + 1])
    ensures PortsParse(entries[..i + 1]) ==>
              PortsOf(entries[..i + 1]) ==
                PortsOf(entries[..i]) + if HasPort(entries[i]) then [Value(PortText(entries[i]))] else []
  {
    hide PortText, HasPort, IsNumber, Value;
    assert entries[..i + 1][..i] == entries[..i];
    assert entries[i] in entries && entries[i] in entries[..i + 1];
    assert forall x | x in entries[..i + 1] :: x in entries[..i] || x == entries[i];
  }

  method CheckSpacing(ports: seq<nat>) returns (ok: bool)
    requires InRange(ports)
    ensures ok == Rising(ports)
  {
    var current: int := 0;
    for i := 0 to |ports|
      invariant current == if i == 0 then 0 else ports[i - 1]
      invariant forall k: nat | k + 1 < i :: ports[k] + 100 < ports[k + 1]
    {
      assert ports[i] in ports;
      if !(current - 100 < ports[i] && ports[i] > current + 100) {
        assert i == 0 || !(ports[i - 1] + 100 < ports[i - 1 + 1]);
        return false;
      }
      current := ports[i];
    }
    return true;
  }

  /** The whole check.  It accepts exactly the lists whose ports are numbers strictly between 20000 and
      50000 and rise by more than 100 each; the uniqueness check at its end never fires. */
  method CheckExtraListeners(value: string) returns (v: Verdict)
    ensures v.Accepted? <==>
              || value == ""
              || (var entries := Split(value, ',');
                  PortsParse(entries) && InRange(PortsOf(entries)) && Rising(PortsOf(entries)))
    ensures v.Accepted? ==> v.listeners == if value == "" then [] else Split(value, ',')
    ensures v.NoPort? ==> exists i: nat :: FirstBad(Split(value, ','), i) && NoNumber(Split(value, ',')[i])
    ensures v.OutOfRange? ==> exists i: nat :: FirstBad(Split(value, ','), i) && BadPort(Split(value, ',')[i])
    ensures v.TooClose? ==> var entries := Split(value, ',');
                            PortsParse(entries) && InRange(PortsOf(entries)) && !Rising(PortsOf(entries))
    ensures v != NotUnique
  {
    hide PortsParse, PortsOf, FirstBad, NoNumber, BadPort;
    if value == "" { return Accepted([]); }
    var entries := Split(value, ',');
    var ports;
    v, ports := CollectPorts(entries);
    if !v.Accepted? { return; }
    var spaced := CheckSpacing(ports);
    if !spaced { return TooClose; }
    forall i: nat, j: nat | i < j < |ports| ensures ports[i] != ports[j] { RisingApart(ports, i, j); }
    if exists i: nat, j: nat :: i < j < |ports| && ports[i] == ports[j] { return NotUnique; }
    return Accepted(entries);
  }

  lemma {:induction false} OutOfRangeStays(entries: seq<string>, n: nat, port: nat)
    requires n <= |entries| && PortsParse(entries[..n]) && port in PortsOf(entries[..n])
    ensures PortsParse(entries) ==> port in PortsOf(entries)
    decreases |entries| - n
  {
    if n == |entries| {
      assert entries[..n] == entries;
    } else if PortsParse(entries) {
      assert entries[..n + 1][..n] == entries[..n];
      assert forall e | e in entries[..n + 1] :: e in entries;
      OutOfRangeStays(entries, n + 1, port);
    }
  }

  // ---- Listeners ----

  datatype Auth = PlainScram | TlsScram | MutualTls | PlainOauth | TlsOauth

  datatype Listener =
    | Internal
    | Client(auth: Auth)
    | External(auth: Auth)
    | Extra(auth: Auth, base: nat, count: nat)
    | Controller

  function ClientPort(a: Auth): nat {
    match a
    case PlainScram => 9092
    case TlsScram => 9093
    case MutualTls => 9094
    case PlainOauth => 9095
    case TlsOauth => 9096
  }

  /** Internal traffic always uses TLS with SCRAM. */
  function Port(l: Listener): nat {
    match l
    case Internal => 19093
    case Client(auth) => ClientPort(auth)
    case External(auth) => ClientPort(auth) + 20000
    case Extra(auth, base, _) => ClientPort(auth) + base
    case Controller => 9098
  }

  function ProtocolName(a: Auth): string {
    match a
    case PlainScram => "SASL_PLAINTEXT_SCRAM_SHA_512"
    case TlsScram => "SASL_SSL_SCRAM_SHA_512"
    case MutualTls => "SSL_SSL"
    case PlainOauth => "SASL_PLAINTEXT_OAUTHBEARER"
    case TlsOauth => "SASL_SSL_OAUTHBEARER"
  }

  function ScopeName(l: Listener): string {
    match l
    case Internal => "INTERNAL_"
    case Client(_) => "CLIENT_"
    case External(_) => "EXTERNAL_"
    case Extra(_, _, _) => "EXTRA_"
    case Controller => "CONTROLLER_"
  }

  function AuthOf(l: Listener): Auth { if l.Internal? || l.Controller? then TlsScram else l.auth }

  function Name(l: Listener): string {
    ScopeName(l) + ProtocolName(AuthOf(l)) + if l.Extra? then "_" + Decimal(l.count) else ""
  }

  /** The names that show up in the configuration: scope, protocol and mechanism, and the number of an extra
      listener.  Internal and controller traffic is authenticated by SCRAM over TLS. */
  lemma KnownNames()
    ensures Name(Internal) == "INTERNAL_" + "SASL_SSL_SCRAM_SHA_512"
    ensures Name(Controller) == "CONTROLLER_" + "SASL_SSL_SCRAM_SHA_512"
    ensures Name(Client(PlainScram)) == "CLIENT_" + "SASL_PLAINTEXT_SCRAM_SHA_512"
    ensures Name(Client(TlsScram)) == "CLIENT_" + "SASL_SSL_SCRAM_SHA_512"
    ensures Name(Client(MutualTls)) == "CLIENT_" + "SSL_SSL"
    ensures Name(Client(PlainOauth)) == "CLIENT_" + "SASL_PLAINTEXT_OAUTHBEARER"
    ensures Name(Client(TlsOauth)) == "CLIENT_" + "SASL_SSL_OAUTHBEARER"
    ensures Name(External(MutualTls)) == "EXTERNAL_" + "SSL_SSL"
    ensures forall base: nat, n: nat :: Name(Extra(MutualTls, base, n)) == "EXTRA_" + "SSL_SSL" + "_" + Decimal(n)
  {
    hide Decimal;
    forall base: nat, n: nat ensures Name(Extra(MutualTls, base, n)) == "EXTRA_" + "SSL_SSL" + "_" + Decimal(n) {
      assert "EXTRA_" + "SSL_SSL" + ("_" + Decimal(n)) == "EXTRA_" + "SSL_SSL" + "_" + Decimal(n);
    }
    Bare("INTERNAL_" + "SASL_SSL_SCRAM_SHA_512");
    Bare("CONTROLLER_" + "SASL_SSL_SCRAM_SHA_512");
    Bare("CLIENT_" + "SASL_PLAINTEXT_SCRAM_SHA_512");
    Bare("CLIENT_" + "SASL_SSL_SCRAM_SHA_512");
    Bare("CLIENT_" + "SSL_SSL");
    Bare("CLIENT_" + "SASL_PLAINTEXT_OAUTHBEARER");
    Bare("CLIENT_" + "SASL_SSL_OAUTHBEARER");
    Bare("EXTERNAL_" + "SSL_SSL");
  }

  lemma Bare(s: string)
    ensures s + "" == s
  {
  }

  /** How a unit is set up: the authentication methods in use, which of them have a node port, the base
      ports of the extra listeners, and whether it is a controller too. */
  datatype Setup = Setup(auths: seq<Auth>, exposed: seq<Auth>, bases: seq<nat>, controller: bool)

  predicate NoRepeats(auths: seq<Auth>) { forall i, j | 0 <= i < j < |auths| :: auths[i] != auths[j] }

  ghost predicate GoodSetup(s: Setup) {
    NoRepeats(s.auths) && NoRepeats(s.exposed) && InRange(s.bases) && Rising(s.bases)
  }

  function ClientListeners(auths: seq<Auth>): seq<Listener> {
    seq(|auths|, i requires 0 <= i < |auths| => Client(auths[i]))
  }

  function ExternalListeners(auths: seq<Auth>): seq<Listener> {
    seq(|auths|, i requires 0 <= i < |auths| => External(auths[i]))
  }

  /** All authentication methods at each base port in turn. */
  function ExtraListeners(auths: seq<Auth>, bases: seq<nat>): seq<Listener> {
    if bases == [] then []
    else
      var n := |bases| - 1;
      ExtraListeners(auths, bases[..n]) + seq(|auths|, i requires 0 <= i < |auths| => Extra(auths[i], bases[n], n))
  }

  function AllListeners(s: Setup): seq<Listener> {
    [Internal] + ClientListeners(s.auths) + ExternalListeners(s.exposed) + ExtraListeners(s.auths, s.bases)
    + if s.controller then [Controller] else []
  }

  method BuildExtraListeners(auths: seq<Auth>, bases: seq<nat>) returns (listeners: seq<Listener>)
    ensures listeners == ExtraListeners(auths, bases)
  {
    listeners := [];
    var count := 0;
    while count < |bases|
      invariant count <= |bases| && listeners == ExtraListeners(auths, bases[..count])
    {
      ghost var before := listeners;
      for i := 0 to |auths|
        invariant listeners == before + seq(i, k requires 0 <= k < i <= |auths| => Extra(auths[k], bases[count], count))
      {
        listeners := listeners + [Extra(auths[i], bases[count], count)];
      }
      assert bases[..count + 1][..count] == bases[..count];
      count := count + 1;
    }
    assert bases[..|bases|] == bases;
  }

  // ---- Which listeners there are ----

  ghost predicate Present(s: Setup, l: Listener) {
    match l
    case Internal => true
    case Client(auth) => auth in s.auths
    case External(auth) => auth in s.exposed
    case Extra(auth, base, count) => auth in s.auths && count < |s.bases| && base == s.bases[count]
    case Controller => s.controller
  }

  ghost predicate Apart(ls: seq<Listener>) { forall i, j | 0 <= i < j < |ls| :: ls[i] != ls[j] }

  lemma ApartJoin(a: seq<Listener>, b: seq<Listener>)
    requires Apart(a) && Apart(b) && forall x | x in a :: x !in b
    ensures Apart(a + b)
  {
    forall i, j | 0 <= i < j < |a + b| ensures (a + b)[i] != (a + b)[j] {
      if i < |a| <= j { assert a[i] in a && b[j - |a|] in b; }
    }
  }

  lemma {:induction false} ExtraPresent(auths: seq<Auth>, bases: seq<nat>, l: Listener)
    requires NoRepeats(auths)
    ensures Apart(ExtraListeners(auths, bases))
    ensures l in ExtraListeners(auths, bases) <==>
            l.Extra? && l.auth in auths && l.count < |bases| && l.base == bases[l.count]
    ensures forall x | x in ExtraListeners(auths, bases) :: x.Extra? && x.count < |bases|
    decreases |bases|
  {
    if bases != [] {
      var n := |bases| - 1;
      ExtraPresent(auths, bases[..n], l);
      var front, last := ExtraListeners(auths, bases[..n]),
        seq(|auths|, i requires 0 <= i < |auths| => Extra(auths[i], bases[n], n));
      assert forall i: nat | i < |auths| :: last[i] == Extra(auths[i], bases[n], n);
      assert Apart(last);
      ApartJoin(front, last);
      assert l in last <==> exists i: nat :: i < |auths| && l == last[i];
      if l.Extra? && l.auth in auths && l.count == n && l.base == bases[n] {
        var i: nat :| i < |auths| && auths[i] == l.auth;
        assert last[i] == l;
      }
    }
  }

  lemma ClientPresent(auths: seq<Auth>, l: Listener)
    requires NoRepeats(auths)
    ensures Apart(ClientListeners(auths)) && (l in ClientListeners(auths) <==> l.Client? && l.auth in auths)
    ensures forall x | x in ClientListeners(auths) :: x.Client?
  {
    var ls := ClientListeners(auths);
    assert forall i: nat | i < |auths| :: ls[i] == Client(auths[i]);
    if l.Client? && l.auth in auths {
      var i: nat :| i < |auths| && auths[i] == l.auth;
      assert ls[i] == l;
    }
  }

  lemma ExternalPresent(auths: seq<Auth>, l: Listener)
    requires NoRepeats(auths)
    ensures Apart(ExternalListeners(auths)) && (l in ExternalListeners(auths) <==> l.External? && l.auth in auths)
    ensures forall x | x in ExternalListeners(auths) :: x.External?
  {
    var ls := ExternalListeners(auths);
    assert forall i: nat | i < |auths| :: ls[i] == External(auths[i]);
    if l.External? && l.auth in auths {
      var i: nat :| i < |auths| && auths[i] == l.auth;
      assert ls[i] == l;
    }
  }

  /** Every listener there should be is there, once. */
  lemma AllPresent(s: Setup, l: Listener)
    requires GoodSetup(s)
    ensures Apart(AllListeners(s)) && (l in AllListeners(s) <==> Present(s, l))
  {
    hide ExtraListeners, ClientListeners, ExternalListeners, InRange, Rising, NoRepeats;
    var clients, externals, extras := ClientListeners(s.auths), ExternalListeners(s.exposed),
      ExtraListeners(s.auths, s.bases);
    ClientPresent(s.auths, l);
    ExternalPresent(s.exposed, l);
    ExtraPresent(s.auths, s.bases, l);
    assert Apart([Internal]);
    hide Apart;
    ApartJoin([Internal], clients);
    ApartJoin([Internal] + clients, externals);
    ApartJoin([Internal] + clients + externals, extras);
    assert Apart(if s.controller then [Controller] else []) by { ApartController(s.controller); }
    ApartJoin([Internal] + clients + externals + extras, if s.controller then [Controller] else []);
  }

  lemma ApartController(controller: bool)
    ensures Apart(if controller then [Controller] else [])
  {
  }

  // ---- Ports ----

  /** An extra listener would share its port with a node port's listener. */
  ghost predicate Clash(s: Setup) {
    exists n: nat, a, e :: n < |s.bases| && a in s.auths && e in s.exposed &&
      s.bases[n] + ClientPort(a) == 20000 + ClientPort(e)
  }

  lemma OnePort(s: Setup, x: Listener, y: Listener)
    requires GoodSetup(s) && Present(s, x) && Present(s, y) && x != y && Port(x) == Port(y)
    ensures Clash(s)
  {
    if x.Extra? { assert s.bases[x.count] in s.bases; }
    if y.Extra? { assert s.bases[y.count] in s.bases; }
    if x.Extra? && y.Extra? {
      if x.count < y.count { RisingApart(s.bases, x.count, y.count); }
      if y.count < x.count { RisingApart(s.bases, y.count, x.count); }
    }
  }

  /** For every accepted list of base ports: all listeners have ports of their own exactly when no extra
      listener meets a node port's listener. */
  lemma PortsApart(s: Setup)
    requires GoodSetup(s)
    ensures (forall i, j | 0 <= i < j < |AllListeners(s)| :: Port(AllListeners(s)[i]) != Port(AllListeners(s)[j])) <==>
            !Clash(s)
  {
    hide InRange, Rising, GoodSetup, Port, ClientPort;
    var all := AllListeners(s);
    hide AllListeners;
    AllPresent(s, Internal);
    if i, j :| 0 <= i < j < |all| && Port(all[i]) == Port(all[j]) {
      AllPresent(s, all[i]);
      AllPresent(s, all[j]);
      OnePort(s, all[i], all[j]);
    }
    if n: nat, a, e :|
        n < |s.bases| && a in s.auths && e in s.exposed && s.bases[n] + ClientPort(a) == 20000 + ClientPort(e) {
      var x, y := Extra(a, s.bases[n], n), External(e);
      AllPresent(s, x);
      AllPresent(s, y);
      assert Port(x) == Port(y) by { SamePort(a, s.bases[n], n, e); }
      var i :| 0 <= i < |all| && all[i] == x;
      var j :| 0 <= j < |all| && all[j] == y;
      assert i < j || j < i;
    }
  }

  /** The ports that clients know: five on the unit, the same 20000 higher at the nodes, and from each base port
      on; 19093 between brokers and 9098 between controllers. */
  lemma KnownPorts(base: nat, n: nat)
    ensures Port(Internal) == 19093 && Port(Controller) == 9098
    ensures Port(Client(PlainScram)) == 9092 && Port(External(PlainScram)) == 29092
    ensures Port(Client(TlsScram)) == 9093 && Port(External(TlsScram)) == 29093
    ensures Port(Client(MutualTls)) == 9094 && Port(External(MutualTls)) == 29094
    ensures Port(Client(PlainOauth)) == 9095 && Port(External(PlainOauth)) == 29095
    ensures Port(Client(TlsOauth)) == 9096 && Port(External(TlsOauth)) == 29096
    ensures forall a: Auth :: Port(Extra(a, base, n)) == base + Port(Client(a))
  {
  }

  /** With base port 20001, an extra listener without TLS meets the node port's listener with TLS. */
  lemma LowBaseClashes()
    ensures var s := Setup([PlainScram], [TlsScram], [20001], false);
            && GoodSetup(s) && Extra(PlainScram, 20001, 0) in AllListeners(s) && External(TlsScram) in AllListeners(s)
            && Port(Extra(PlainScram, 20001, 0)) == Port(External(TlsScram)) == 29093
            && exists i, j :: 0 <= i < j < |AllListeners(s)| && Port(AllListeners(s)[i]) == Port(AllListeners(s)[j])
  {
    var s := Setup([PlainScram], [TlsScram], [20001], false);
    AllPresent(s, Extra(PlainScram, 20001, 0));
    AllPresent(s, External(TlsScram));
    hide AllListeners;
    assert Clash(s) by { assert s.bases[0] == 20001 && PlainScram in s.auths && TlsScram in s.exposed; }
    PortsApart(s);
  }

  lemma SamePort(a: Auth, base: nat, n: nat, e: Auth)
    requires base + ClientPort(a) == 20000 + ClientPort(e)
    ensures Port(Extra(a, base, n)) == Port(External(e))
  {
  }

  /** No clash without node ports or with base ports above 20004, and no port is above 59095. */
  lemma PortBounds(s: Setup, l: Listener)
    requires GoodSetup(s)
    ensures s.exposed == [] || (forall b | b in s.bases :: b > 20004) ==> !Clash(s)
    ensures l in AllListeners(s) ==> Port(l) <= 59095
  {
    AllPresent(s, l);
    if Present(s, l) && l.Extra? { assert s.bases[l.count] in s.bases; }
    if n: nat, a, e :|
        n < |s.bases| && a in s.auths && e in s.exposed && s.bases[n] + ClientPort(a) == 20000 + ClientPort(e) {
      assert s.bases[n] in s.bases;
    }
  }

  // ---- Names ----

  lemma DifferAt(x: string, y: string, i: nat)
    requires i < |x| && i < |y| && x[i] != y[i]
    ensures x != y
  {
  }

  lemma ScopesDiffer(x: Listener, y: Listener, more: string, other: string)
    requires ScopeName(x) != ScopeName(y)
    ensures ScopeName(x) + more != ScopeName(y) + other
  {
    var a, b := ScopeName(x) + more, ScopeName(y) + other;
    var i := if a[0] != b[0] then 0 else if a[1] != b[1] then 1 else 3;
    DifferAt(a, b, i);
  }

  /** The characters that tell the protocol names apart. */
  lemma ProtocolMarks(a: Auth)
    ensures |ProtocolName(a)| >= 7 && ProtocolName(a)[1] == if a.MutualTls? then 'S' else 'A'
    ensures !a.MutualTls? ==>
              |ProtocolName(a)| >= 16 && ProtocolName(a)[5] == if a.TlsScram? || a.TlsOauth? then 'S' else 'P'
    ensures a.TlsScram? || a.TlsOauth? ==> ProtocolName(a)[9] == if a.TlsScram? then 'S' else 'O'
    ensures a.PlainScram? || a.PlainOauth? ==> ProtocolName(a)[15] == if a.PlainScram? then 'S' else 'O'
  {
  }

  lemma ProtocolsDiffer(a: Auth, b: Auth, more: string, other: string)
    requires a != b
    ensures ProtocolName(a) + more != ProtocolName(b) + other
  {
    ProtocolMarks(a);
    ProtocolMarks(b);
    hide ProtocolName;
    var i := if a.MutualTls? || b.MutualTls? then 1
             else if (a.TlsScram? || a.TlsOauth?) != (b.TlsScram? || b.TlsOauth?) then 5
             else if a.TlsScram? || a.TlsOauth? then 9 else 15;
    DifferAt(ProtocolName(a) + more, ProtocolName(b) + other, i);
  }

  lemma NamesDiffer(x: Listener, y: Listener)
    requires x != y && !(x.Extra? && y.Extra? && x.auth == y.auth && x.count == y.count)
    ensures Name(x) != Name(y)
  {
    hide ProtocolName, Decimal;
    var more := if x.Extra? then "_" + Decimal(x.count) else "";
    var other := if y.Extra? then "_" + Decimal(y.count) else "";
    assert Name(x) == ScopeName(x) + (ProtocolName(AuthOf(x)) + more);
    assert Name(y) == ScopeName(y) + (ProtocolName(AuthOf(y)) + other);
    if ScopeName(x) != ScopeName(y) {
      ScopesDiffer(x, y, ProtocolName(AuthOf(x)) + more, ProtocolName(AuthOf(y)) + other);
    } else {
      SameScope(x, y);
      var p, q := ProtocolName(AuthOf(x)) + more, ProtocolName(AuthOf(y)) + other;
      if AuthOf(x) != AuthOf(y) {
        ProtocolsDiffer(AuthOf(x), AuthOf(y), more, other);
      } else {
        CountsDiffer(ProtocolName(AuthOf(x)), x.count, y.count);
      }
      var n := |ScopeName(x)|;
      assert Name(x)[n..] == p && Name(y)[n..] == q;
    }
  }

  lemma SameScope(x: Listener, y: Listener)
    requires ScopeName(x) == ScopeName(y)
    ensures (x.Internal? <==> y.Internal?) && (x.Client? <==> y.Client?) && (x.External? <==> y.External?)
    ensures (x.Extra? <==> y.Extra?) && (x.Controller? <==> y.Controller?)
  {
    if x.External? { assert ScopeName(x)[3] == 'E'; }
    if y.External? { assert ScopeName(y)[3] == 'E'; }
    assert ScopeName(x)[0] == ScopeName(y)[0] && ScopeName(x)[1] == ScopeName(y)[1] &&
      ScopeName(x)[3] == ScopeName(y)[3];
  }

  lemma CountsDiffer(start: string, m: nat, n: nat)
    requires m != n
    ensures start + ("_" + Decimal(m)) != start + ("_" + Decimal(n))
  {
    var x, y := start + ("_" + Decimal(m)), start + ("_" + Decimal(n));
    assert x[|start| + 1..] == Decimal(m) && y[|start| + 1..] == Decimal(n);
    if Decimal(m) == Decimal(n) { DecimalInjective(m, n); }
  }

  /** All listeners have names of their own. */
  lemma NamesApart(s: Setup)
    requires GoodSetup(s)
    ensures forall i, j | 0 <= i < j < |AllListeners(s)| :: Name(AllListeners(s)[i]) != Name(AllListeners(s)[j])
  {
    hide InRange, Rising, GoodSetup, AllListeners, Name;
    var all := AllListeners(s);
    AllPresent(s, Internal);
    forall i, j | 0 <= i < j < |all| ensures Name(all[i]) != Name(all[j]) {
      AllPresent(s, all[i]);
      AllPresent(s, all[j]);
      NamesDiffer(all[i], all[j]);
    }
  }
}
