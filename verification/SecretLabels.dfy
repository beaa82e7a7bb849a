/** Labels of relation secrets: built from a relation's name and id and parsed back when the platform
    reports a change of the secret. */
module SecretLabels {
  import opened Strings

  datatype Option<T> = None | Some(value: T)

  predicate DotFree(s: string) { '.' !in s }

  /** The number a label part stands for. */
  function ParseNumber(s: string): Option<nat> {
    if s != "" && AllDigits(s) then Some(Value(s)) else None
  }

  lemma NumberBack(n: nat)
    ensures ParseNumber(Decimal(n)) == Some(n) && DotFree(Decimal(n))
  {
    ValueOfDecimal(n);
  }

  // ---- Version 0 ----

  function Label0(name: string, id: nat, group: string): string {
    name + "." + Decimal(id) + "." + group + ".secret"
  }

  /** Takes the parts off the end, so that the name may hold dots. */
  function Parse0(text: string): Option<(string, nat)> {
    var parts := Split(text, '.');
    if |parts| < 3 then None
    else
      var n := |parts| - 3;
      match ParseNumber(parts[n])
      case None => None
      case Some(id) => Some((if n == 0 then "" else Join(parts[..n], '.'), id))
  }

  lemma LabelParts0(name: string, id: nat, group: string)
    requires DotFree(group)
    ensures Split(Label0(name, id, group), '.') == Split(name, '.') + [Decimal(id), group, "secret"]
  {
    hide Split, Decimal;
    NumberBack(id);
    var rest := group + "." + "secret";
    SplitAt(name, '.', Decimal(id) + "." + rest);
    SplitAt(Decimal(id), '.', rest);
    SplitOne(Decimal(id), '.');
    SplitAt(group, '.', "secret");
    SplitOne(group, '.');
    SplitOne("secret", '.');
    assert Label0(name, id, group) == name + "." + (Decimal(id) + "." + rest);
  }

  /** The name and the id come back for every relation name. */
  lemma RoundTrip0(name: string, id: nat, group: string)
    requires DotFree(group)
    ensures Parse0(Label0(name, id, group)) == Some((name, id))
  {
    LabelParts0(name, id, group);
    NumberBack(id);
    JoinSplit(name, '.');
    var front := Split(name, '.');
    assert (front + [Decimal(id), group, "secret"])[..|front|] == front;
  }

  /** So no two secrets share a label. */
  lemma LabelsDiffer0(name: string, id: nat, group: string, otherName: string, otherId: nat, otherGroup: string)
    requires DotFree(group) && DotFree(otherGroup) && Label0(name, id, group) == Label0(otherName, otherId, otherGroup)
    ensures name == otherName && id == otherId && group == otherGroup
  {
    RoundTrip0(name, id, group);
    RoundTrip0(otherName, otherId, otherGroup);
    LabelParts0(name, id, group);
    LabelParts0(otherName, otherId, otherGroup);
    var parts := Split(Label0(name, id, group), '.');
    assert parts[|parts| - 2] == group && parts[|parts| - 2] == otherGroup;
  }

  // ---- Version 1 ----

  /** An empty request id stands for a missing one. */
  function Label1(name: string, id: nat, request: string, group: string): string {
    if request == "" then name + "." + Decimal(id) + "." + group + ".secret"
    else name + "." + Decimal(id) + "." + request + "." + group + ".secret"
  }

  /** Takes the parts off the front. */
  function Parse1(text: string): Option<(string, nat)> {
    var parts := Split(text, '.');
    if |parts| < 3 then None
    else match ParseNumber(parts[1])
      case None => None
      case Some(id) => Some((parts[0], id))
  }

  function ParseRequest1(text: string): Option<string> {
    var parts := Split(text, '.');
    if |parts| < 5 then None else Some(parts[2])
  }

  lemma LabelParts1(name: string, id: nat, request: string, group: string)
    ensures Split(Label1(name, id, request, group), '.')
            == Split(name, '.') + [Decimal(id)] + (if request == "" then [] else Split(request, '.'))
               + Split(group, '.') + ["secret"]
  {
    hide Split, Decimal;
    var rest := LabelTail(request, group);
    NumberBack(id);
    TailParts(request, group);
    SplitAt(name, '.', Decimal(id) + "." + rest);
    SplitAt(Decimal(id), '.', rest);
    SplitOne(Decimal(id), '.');
    assert Label1(name, id, request, group) == name + "." + (Decimal(id) + "." + rest);
  }

  /** Labels that were not built here, such as those of other secrets: three parts with a number in the middle
      are enough to be taken for a relation's, two are not; and no request id is read off fewer than five. */
  lemma ForeignLabels(a: string, n: nat, b: string, c: string)
    requires DotFree(a) && DotFree(b) && DotFree(c)
    ensures Parse1(a + "." + Decimal(n)) == None && Parse0(a + "." + Decimal(n)) == None
    ensures Parse1(a + "." + Decimal(n) + "." + b) == Some((a, n))
    ensures ParseRequest1(a + "." + Decimal(n) + "." + b + "." + c) == None
  {
    hide Split, Decimal;
    NumberBack(n);
    var d := Decimal(n);
    SplitOne(a, '.');
    SplitOne(d, '.');
    SplitOne(b, '.');
    SplitOne(c, '.');
    SplitAt(a, '.', d);
    SplitAt(d, '.', b);
    SplitAt(a, '.', d + "." + b);
    SplitAt(b, '.', c);
    SplitAt(d, '.', b + "." + c);
    SplitAt(a, '.', d + "." + (b + "." + c));
    assert a + "." + d + "." + b == a + "." + (d + "." + b);
    assert a + "." + d + "." + b + "." + c == a + "." + (d + "." + (b + "." + c));
  }

  /** What follows the relation id. */
  function LabelTail(request: string, group: string): string {
    if request == "" then group + ".secret" else request + "." + (group + ".secret")
  }

  lemma TailParts(request: string, group: string)
    ensures Split(LabelTail(request, group), '.')
            == (if request == "" then [] else Split(request, '.')) + Split(group, '.') + ["secret"]
  {
    hide Split;
    SplitAt(group, '.', "secret");
    SplitOne("secret", '.');
    assert group + ".secret" == group + "." + "secret";
    if request != "" { SplitAt(request, '.', group + ".secret"); }
  }

  lemma SplitFirst(s: string)
    ensures Split(s, '.')[0] == s <==> DotFree(s)
    ensures DotFree(s) ==> Split(s, '.') == [s]
  {
    if DotFree(s) { SplitOne(s, '.'); }
  }

  /** The name and the id come back exactly for names without dots. */
  lemma RoundTrip1(name: string, id: nat, request: string, group: string)
    ensures Parse1(Label1(name, id, request, group)) == Some((name, id)) <==> DotFree(name)
  {
    hide Split, Decimal, Label1;
    LabelParts1(name, id, request, group);
    NumberBack(id);
    SplitFirst(name);
    var parts := Split(Label1(name, id, request, group), '.');
    assert parts[0] == Split(name, '.')[0];
    if DotFree(name) { assert parts[1] == Decimal(id); }
  }

  /** With such a name and a plain group, the request id comes back exactly if it holds no dot, and a
      label without one says so. */
  lemma RequestRoundTrip1(name: string, id: nat, request: string, group: string)
    requires DotFree(name) && DotFree(group)
    ensures ParseRequest1(Label1(name, id, request, group)) == (if request == "" then None else Some(request)) <==>
            DotFree(request)
  {
    hide Split, Decimal, Label1;
    LabelParts1(name, id, request, group);
    SplitFirst(name);
    SplitFirst(group);
    SplitFirst(request);
    var parts := Split(Label1(name, id, request, group), '.');
    if request != "" { assert parts[2] == Split(request, '.')[0]; }
  }
}
