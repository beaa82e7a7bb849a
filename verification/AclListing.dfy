/** The parser of the access rule listing: a fold over lines that remembers the last resource it saw. */
module AclListing {
  import opened Strings

  datatype Option<T> = None | Some(value: T)

  /** One line of the listing: a resource, one of its rules, or a line with neither. */
  datatype Line =
    | Header(lead: string, kind: string, name: string, close: string)
    | Entry(lead: string, user: string, host: string, operation: string, close: string)
    | Noise(text: string)

  datatype Rule = Rule(kind: string, name: string, user: string, operation: string)

  // ---- Python's regular-expression searches ----

  predicate EndsWith(s: string, suffix: string) {
    |suffix| <= |s| && s[|s| - |suffix|..] == suffix
  }

  /** The value of `tail([^,]+),` at the start of `w`, if it matches there. */
  predicate HasValue(w: string, tail: string) {
    StartsWith(w, tail) && 0 < IndexOf(w[|tail|..], ',') < |w| - |tail|
  }

  function ValueAt(w: string, tail: string): string
    requires HasValue(w, tail)
  {
    w[|tail|..][..IndexOf(w[|tail|..], ',')]
  }

  /** `re.search(key + "([^,]+),", s)`: the first place where the key is followed by a value and a comma. */
  function Search(s: string, key: string): Option<string>
    decreases |s|
  {
    if HasValue(s, key) then Some(ValueAt(s, key))
    else if s == "" then None
    else Search(s[1..], key)
  }

  // ---- The fold ----

  datatype Memory = Memory(kind: Option<string>, name: Option<string>, user: Option<string>, rules: set<Rule>)

  function Latest(found: Option<string>, was: Option<string>): Option<string> {
    if found.Some? then found else was
  }

  function ParseLine(m: Memory, line: string): Memory {
    var kind := Latest(Search(line, "resourceType="), m.kind);
    var name := Latest(Search(line, "name="), m.name);
    var user := Latest(Search(line, "principal=User:"), m.user);
    var operation := Search(line, "operation=");
    Memory(kind, name, user,
           if operation.Some? && kind.Some? && name.Some? && user.Some?
           then m.rules + {Rule(kind.value, name.value, user.value, operation.value)} else m.rules)
  }

  function ParseLines(lines: seq<string>): Memory {
    if lines == [] then Memory(None, None, None, {})
    else ParseLine(ParseLines(lines[..|lines| - 1]), lines[|lines| - 1])
  }

  /** `_parse_acls`. */
  method ParseAcls(lines: seq<string>) returns (rules: set<Rule>)
    ensures rules == ParseLines(lines).rules
  {
    var m := Memory(None, None, None, {});
    for i := 0 to |lines|
      invariant m == ParseLines(lines[..i])
    {
      m := ParseLine(m, lines[i]);
      assert lines[..i + 1][..i] == lines[..i];
    }
    assert lines[..|lines|] == lines;
    return m.rules;
  }

  /** A value ends at a comma: where there is none after the key, nothing is found. */
  lemma {:induction false} CommaNeeded(s: string, key: string)
    requires ',' !in s
    ensures Search(s, key) == None
    decreases |s|
  {
    if s != "" { CommaNeeded(s[1..], key); }
  }

  // ---- Searching a line that is made of known parts ----

  predicate NoEquals(s: string) { '=' !in s }

  predicate NoComma(s: string) { ',' !in s }

  /** What the search finds in the text before a comma: the first place of the key with a value after it. */
  function Find(s: string, key: string): Option<string>
    decreases |s|
  {
    if StartsWith(s, key) && |key| < |s| then Some(s[|key|..])
    else if s == "" then None
    else Find(s[1..], key)
  }

  /** What it finds in a line given by its parts between commas. */
  function FindParts(ws: seq<string>, key: string): Option<string>
    requires ws != []
  {
    if |ws| == 1 then Search(ws[0], key)
    else if Find(ws[0], key).Some? then Find(ws[0], key)
    else FindParts(ws[1..], key)
  }

  lemma DiffersAt(s: string, key: string, i: nat)
    requires i < |key| && (i < |s| ==> s[i] != key[i])
    ensures !StartsWith(s, key)
  {
    assert |key| <= |s| ==> s[..|key|][i] == s[i];
  }

  lemma StartsBefore(w: string, rest: string, key: string)
    requires NoComma(key)
    ensures StartsWith(w + "," + rest, key) <==> StartsWith(w, key)
  {
    var s := w + "," + rest;
    assert s[|w|] == ',';
    if |key| <= |w| {
      assert s[..|key|] == w[..|key|];
    } else {
      DiffersAt(s, key, |w|);
    }
  }

  lemma {:induction false} SearchComma(w: string, rest: string, key: string)
    requires NoComma(w) && NoComma(key) && key != ""
    ensures Search(w + "," + rest, key) == if Find(w, key).Some? then Find(w, key) else Search(rest, key)
    decreases |w|
  {
    hide StartsWith;
    var s := w + "," + rest;
    StartsBefore(w, rest, key);
    if w == "" {
      assert !StartsWith(w, key) by { EmptyStarts(key); }
      assert s[1..] == rest;
    } else {
      if StartsWith(w, key) { ValueBefore(w, rest, key); }
      assert s[1..] == w[1..] + "," + rest;
      SearchComma(w[1..], rest, key);
    }
  }

  lemma EmptyStarts(key: string)
    requires key != ""
    ensures !StartsWith("", key)
  {
  }

  lemma ValueBefore(w: string, rest: string, key: string)
    requires NoComma(w) && StartsWith(w, key) && StartsWith(w + "," + rest, key)
    ensures HasValue(w + "," + rest, key) <==> |key| < |w|
    ensures HasValue(w + "," + rest, key) ==> ValueAt(w + "," + rest, key) == w[|key|..]
  {
    var s := w + "," + rest;
    assert s[|key|..] == w[|key|..] + "," + rest;
    IndexIn(w[|key|..], ',', rest);
  }

  lemma {:induction false} SearchJoined(ws: seq<string>, key: string)
    requires ws != [] && NoComma(key) && key != ""
    requires forall i: nat | i + 1 < |ws| :: NoComma(ws[i])
    ensures Search(Join(ws, ','), key) == FindParts(ws, key)
    decreases |ws|
  {
    hide Search, Find;
    if |ws| > 1 {
      assert Join(ws, ',') == ws[0] + "," + Join(ws[1..], ',');
      SearchComma(ws[0], Join(ws[1..], ','), key);
      SearchJoined(ws[1..], key);
    }
  }

  /** The key is nowhere in the text. */
  predicate Absent(s: string, key: string) {
    forall j: nat | j <= |s| :: !StartsWith(s[j..], key)
  }

  lemma {:induction false} AbsentFinds(s: string, key: string)
    requires Absent(s, key)
    ensures Find(s, key) == None && Search(s, key) == None
    decreases |s|
  {
    assert s[0..] == s;
    assert !StartsWith(s, key);
    if s != "" {
      forall j: nat | j <= |s[1..]| ensures !StartsWith(s[1..][j..], key) { assert s[1..][j..] == s[1 + j..]; }
      AbsentFinds(s[1..], key);
    }
  }

  /** The first equals sign of a part, preceded by another word, keeps the key away from where they meet. */
  lemma AbsentAround(front: string, value: string, word: string, tail: string)
    requires NoEquals(front) && NoEquals(word) && !EndsWith(front, word) && Absent(value, word + "=" + tail)
    ensures Absent(front + "=" + value, word + "=" + tail)
  {
    var s, key, n, k := front + "=" + value, word + "=" + tail, |front|, |word|;
    assert key[k] == '=' && s[n] == '=';
    forall j: nat | j <= |s| ensures !StartsWith(s[j..], key) {
      if j + k < n {
        assert s[j..][k] == front[j + k];
        DiffersAt(s[j..], key, k);
      } else if j + k == n {
        WordBefore(front, value, word, tail, j);
      } else if j <= n {
        assert s[j..][n - j] == '=' && key[n - j] == word[n - j];
        DiffersAt(s[j..], key, n - j);
      } else {
        assert s[j..] == value[j - n - 1..];
      }
    }
  }

  lemma WordBefore(front: string, value: string, word: string, tail: string, j: nat)
    requires j + |word| == |front|
    ensures StartsWith((front + "=" + value)[j..], word + "=" + tail) ==> EndsWith(front, word)
  {
    var s, key := (front + "=" + value)[j..], word + "=" + tail;
    assert s[..|word|] == front[j..] && key[..|word|] == word;
    assert |key| <= |s| ==> s[..|key|][..|word|] == s[..|word|];
  }

  /** A key cannot begin before a character that it does not have. */
  lemma AbsentPast(front: string, value: string, key: string)
    requires front != "" && front[|front| - 1] !in key && |front| <= |key| && Absent(value, key)
    ensures Absent(front + value, key)
  {
    var s, n := front + value, |front|;
    forall j: nat | j <= |s| ensures !StartsWith(s[j..], key) {
      if j < n {
        assert s[j..][n - 1 - j] == front[n - 1];
        DiffersAt(s[j..], key, n - 1 - j);
      } else {
        assert s[j..] == value[j - n..];
      }
    }
  }

  /** The key where the first equals sign is, and its value. */
  lemma {:induction false} FindHere(front: string, word: string, tail: string, value: string)
    requires NoEquals(front) && NoEquals(word) && value != ""
    ensures Find(front + word + "=" + tail + value, word + "=" + tail) == Some(value)
    decreases |front|
  {
    var s, key := front + word + "=" + tail + value, word + "=" + tail;
    if front == "" {
      assert s == key + value;
    } else {
      assert key[|word|] == '=' && s[|word|] == (front + word)[|word|];
      assert (front + word)[|word|] in front || (front + word)[|word|] in word;
      DiffersAt(s, key, |word|);
      assert s[1..] == front[1..] + word + "=" + tail + value;
      FindHere(front[1..], word, tail, value);
    }
  }

  lemma EndsDiffer(s: string, suffix: string, i: nat)
    requires 0 < i <= |suffix| && i <= |s| && s[|s| - i] != suffix[|suffix| - i]
    ensures !EndsWith(s, suffix)
  {
    assert |suffix| <= |s| ==> s[|s| - |suffix|..][|suffix| - i] == s[|s| - i];
  }

  /** A part in which the key finds its value, after parts that it is absent from. */
  lemma {:induction false} FoundAt(ws: seq<string>, key: string, i: nat, value: string)
    requires i + 1 < |ws| && Find(ws[i], key) == Some(value) && forall j: nat | j < i :: Absent(ws[j], key)
    ensures FindParts(ws, key) == Some(value)
    decreases i
  {
    hide Find, Search, Absent;
    if i > 0 {
      AbsentFinds(ws[0], key);
      FoundAt(ws[1..], key, i - 1, value);
    }
  }

  lemma {:induction false} FoundNowhere(ws: seq<string>, key: string)
    requires ws != [] && forall j: nat | j < |ws| :: Absent(ws[j], key)
    ensures FindParts(ws, key) == None
    decreases |ws|
  {
    hide Find, Search, Absent;
    AbsentFinds(ws[0], key);
    if |ws| > 1 { FoundNowhere(ws[1..], key); }
  }

  // ---- The lines of the listing ----

  /** None of the parser's keys is in the text. */
  predicate KeyFree(s: string) {
    Absent(s, "resourceType=") && Absent(s, "name=") && Absent(s, "principal=User:") && Absent(s, "operation=")
  }

  predicate Captured(s: string) { s != "" && NoComma(s) && KeyFree(s) }

  /** The fields that the parser captures are not empty, and hold no comma and none of the keys; what the
      listing puts before them is fixed text, and what it puts after them holds none of the keys. */
  predicate CleanLine(l: Line) {
    match l
    case Header(lead, kind, name, close) =>
      NoEquals(lead) && NoComma(lead) && Captured(kind) && Captured(name) && KeyFree(close)
    case Entry(lead, user, host, operation, close) =>
      && NoEquals(lead) && NoComma(lead) && Captured(user) && Captured(operation)
      && NoComma(host) && KeyFree(host) && KeyFree(close)
    case Noise(text) => KeyFree(text)
  }

  function HeaderParts(lead: string, kind: string, name: string, close: string): seq<string> {
    [lead + "resourceType=" + kind, " name=" + name, " patternType=" + close]
  }

  function EntryParts(lead: string, user: string, host: string, operation: string, close: string): seq<string> {
    [lead + "principal=User:" + user, " host=" + host, " operation=" + operation, " permissionType=" + close]
  }

  /** A line of the listing, as `Current ACLs for resource ...(resourceType=TOPIC, name=t, patternType=LITERAL)...`
      and `(principal=User:u, host=*, operation=READ, permissionType=ALLOW)`. */
  function Print(l: Line): string {
    match l
    case Header(lead, kind, name, close) => Join(HeaderParts(lead, kind, name, close), ',')
    case Entry(lead, user, host, operation, close) => Join(EntryParts(lead, user, host, operation, close), ',')
    case Noise(text) => text
  }

  lemma HeaderFinds(lead: string, kind: string, name: string, close: string)
    requires CleanLine(Header(lead, kind, name, close))
    ensures var s := Print(Header(lead, kind, name, close));
            && Search(s, "resourceType=") == Some(kind) && Search(s, "name=") == Some(name)
            && Search(s, "principal=User:") == None && Search(s, "operation=") == None
  {
    hide EndsWith, Search, Find, Join, Absent;
    var ws := HeaderParts(lead, kind, name, close);
    HeaderValues(lead, kind, name, close);
    HeaderLacks(lead, kind, name, close);
    SearchJoined(ws, "resourceType=");
    SearchJoined(ws, "name=");
    SearchJoined(ws, "principal=User:");
    SearchJoined(ws, "operation=");
    FoundAt(ws, "resourceType=", 0, kind);
    FoundAt(ws, "name=", 1, name);
    FoundNowhere(ws, "principal=User:");
    FoundNowhere(ws, "operation=");
  }

  lemma HeaderValues(lead: string, kind: string, name: string, close: string)
    requires NoEquals(lead) && NoComma(lead) && Captured(kind) && Captured(name)
    ensures var ws := HeaderParts(lead, kind, name, close);
            && NoComma(ws[0]) && NoComma(ws[1])
            && Find(ws[0], "resourceType=") == Some(kind) && Find(ws[1], "name=") == Some(name)
  {
    hide Find, KeyFree;
    Keys();
    FindHere(lead, "resourceType", "", kind);
    assert lead + "resourceType" + "=" + "" + kind == lead + "resourceType=" + kind;
    FindHere(" ", "name", "", name);
    assert " " + "name" + "=" + "" + name == " name=" + name;
  }

  lemma HeaderLacks(lead: string, kind: string, name: string, close: string)
    requires NoEquals(lead) && KeyFree(kind) && KeyFree(name) && KeyFree(close)
    ensures var ws := HeaderParts(lead, kind, name, close);
            && Absent(ws[0], "name=")
            && (forall j: nat | j < 3 :: Absent(ws[j], "principal=User:") && Absent(ws[j], "operation="))
  {
    hide Absent, EndsWith;
    Keys();
    var ws := HeaderParts(lead, kind, name, close);
    assert ws[0] == (lead + "resourceType") + "=" + kind;
    assert ws[1] == " name" + "=" + name;
    assert ws[2] == " patternType" + "=" + close;
    EndsDiffer(lead + "resourceType", "name", 2);
    AbsentAround(lead + "resourceType", kind, "name", "");
    EndsDiffer(lead + "resourceType", "principal", 1);
    AbsentAround(lead + "resourceType", kind, "principal", "User:");
    EndsDiffer(" name", "principal", 1);
    AbsentAround(" name", name, "principal", "User:");
    EndsDiffer(" patternType", "principal", 1);
    AbsentAround(" patternType", close, "principal", "User:");
    EndsDiffer(lead + "resourceType", "operation", 1);
    AbsentAround(lead + "resourceType", kind, "operation", "");
    EndsDiffer(" name", "operation", 1);
    AbsentAround(" name", name, "operation", "");
    EndsDiffer(" patternType", "operation", 1);
    AbsentAround(" patternType", close, "operation", "");
  }

  lemma Keys()
    ensures "resourceType" + "=" + "" == "resourceType=" && "name" + "=" + "" == "name="
    ensures "principal" + "=" + "User:" == "principal=User:" && "operation" + "=" + "" == "operation="
    ensures "resourceType" + "=" == "resourceType=" && "name" + "=" == "name=" && "operation" + "=" == "operation="
  {
  }

  lemma EntryFinds(lead: string, user: string, host: string, operation: string, close: string)
    requires CleanLine(Entry(lead, user, host, operation, close))
    ensures var s := Print(Entry(lead, user, host, operation, close));
            && Search(s, "resourceType=") == None && Search(s, "name=") == None
            && Search(s, "principal=User:") == Some(user) && Search(s, "operation=") == Some(operation)
  {
    hide EndsWith, Search, Find, Join, Absent;
    var ws := EntryParts(lead, user, host, operation, close);
    EntryValues(lead, user, host, operation, close);
    EntryLacks(lead, user, host, operation, close);
    SearchJoined(ws, "resourceType=");
    SearchJoined(ws, "name=");
    SearchJoined(ws, "principal=User:");
    SearchJoined(ws, "operation=");
    FoundNowhere(ws, "resourceType=");
    FoundNowhere(ws, "name=");
    FoundAt(ws, "principal=User:", 0, user);
    FoundAt(ws, "operation=", 2, operation);
  }

  lemma EntryValues(lead: string, user: string, host: string, operation: string, close: string)
    requires NoEquals(lead) && NoComma(lead) && Captured(user) && NoComma(host) && Captured(operation)
    ensures var ws := EntryParts(lead, user, host, operation, close);
            && NoComma(ws[0]) && NoComma(ws[1]) && NoComma(ws[2])
            && Find(ws[0], "principal=User:") == Some(user) && Find(ws[2], "operation=") == Some(operation)
  {
    hide Find, KeyFree;
    Keys();
    FindHere(lead, "principal", "User:", user);
    assert lead + "principal" + "=" + "User:" + user == lead + "principal=User:" + user;
    FindHere(" ", "operation", "", operation);
    assert " " + "operation" + "=" + "" + operation == " operation=" + operation;
  }

  /** A key that ends with its equals sign is absent from each part that has another word before its first. */
  lemma EntryLacksKey(lead: string, user: string, host: string, operation: string, close: string, word: string)
    requires NoEquals(lead) && NoEquals(word) && ':' !in word && |word| >= 4
    requires Absent(user, word + "=") && Absent(host, word + "=")
    requires Absent(operation, word + "=") && Absent(close, word + "=")
    requires !EndsWith(lead + "principal", word) && !EndsWith(" host", word) && !EndsWith(" permissionType", word)
    ensures var ws := EntryParts(lead, user, host, operation, close);
            && Absent(ws[0], word + "=") && Absent(ws[1], word + "=") && Absent(ws[3], word + "=")
            && (!EndsWith(" operation", word) ==> Absent(ws[2], word + "="))
  {
    hide Absent, EndsWith;
    var ws := EntryParts(lead, user, host, operation, close);
    assert word + "=" + "" == word + "=";
    AbsentPast("User:", user, word + "=");
    assert ws[0] == (lead + "principal") + "=" + ("User:" + user);
    AbsentAround(lead + "principal", "User:" + user, word, "");
    assert ws[1] == " host" + "=" + host;
    AbsentAround(" host", host, word, "");
    assert ws[2] == " operation" + "=" + operation;
    if !EndsWith(" operation", word) { AbsentAround(" operation", operation, word, ""); }
    assert ws[3] == " permissionType" + "=" + close;
    AbsentAround(" permissionType", close, word, "");
  }

  lemma EntryLacks(lead: string, user: string, host: string, operation: string, close: string)
    requires NoEquals(lead) && KeyFree(user) && KeyFree(host) && KeyFree(operation) && KeyFree(close)
    ensures var ws := EntryParts(lead, user, host, operation, close);
            && (forall j: nat | j < 4 :: Absent(ws[j], "resourceType=") && Absent(ws[j], "name="))
            && Absent(ws[0], "operation=") && Absent(ws[1], "operation=")
  {
    hide Absent, EndsWith;
    Keys();
    EndsDiffer(lead + "principal", "resourceType", 1);
    EndsDiffer(" host", "resourceType", 1);
    EndsDiffer(" operation", "resourceType", 1);
    EndsDiffer(" permissionType", "resourceType", 5);
    EntryLacksKey(lead, user, host, operation, close, "resourceType");
    EndsDiffer(lead + "principal", "name", 1);
    EndsDiffer(" host", "name", 1);
    EndsDiffer(" operation", "name", 1);
    EndsDiffer(" permissionType", "name", 2);
    EntryLacksKey(lead, user, host, operation, close, "name");
    EndsDiffer(lead + "principal", "operation", 1);
    EndsDiffer(" host", "operation", 1);
    EndsDiffer(" permissionType", "operation", 1);
    EntryLacksKey(lead, user, host, operation, close, "operation");
  }

  lemma NoiseFinds(text: string)
    requires KeyFree(text)
    ensures Search(text, "resourceType=") == None && Search(text, "name=") == None
    ensures Search(text, "principal=User:") == None && Search(text, "operation=") == None
  {
    hide Search, Absent;
    AbsentFinds(text, "resourceType=");
    AbsentFinds(text, "name=");
    AbsentFinds(text, "principal=User:");
    AbsentFinds(text, "operation=");
  }

  // ---- What the fold recovers ----

  /** Line `h` is the last resource line before line `e`. */
  predicate Governs(doc: seq<Line>, h: nat, e: nat) {
    h < e <= |doc| && doc[h].Header? && forall i: nat | h < i < e :: !doc[i].Header?
  }

  /** The rules printed: each entry with the resource it stands under. */
  ghost predicate Printed(doc: seq<Line>, r: Rule) {
    exists h: nat, e: nat :: Governs(doc, h, e) && e < |doc| && doc[e].Entry?
      && r == Rule(doc[h].kind, doc[h].name, doc[e].user, doc[e].operation)
  }

  function PrintAll(doc: seq<Line>): (lines: seq<string>)
    ensures |lines| == |doc|
    ensures forall i: nat | i < |doc| :: lines[i] == Print(doc[i])
  {
    seq(|doc|, i requires 0 <= i < |doc| => Print(doc[i]))
  }

  /** After all lines so far, the memory holds the resource that governs what follows. */
  ghost predicate Remembers(m: Memory, doc: seq<Line>) {
    && (m.kind.Some? <==> m.name.Some?)
    && (m.kind.Some? <==> exists h: nat :: Governs(doc, h, |doc|))
    && (forall h: nat | Governs(doc, h, |doc|) :: m.kind == Some(doc[h].kind) && m.name == Some(doc[h].name))
  }

  lemma GovernsFront(doc: seq<Line>, l: Line, h: nat, e: nat)
    requires e <= |doc|
    ensures Governs(doc + [l], h, e) <==> Governs(doc, h, e)
  {
    assert forall i: nat | i < |doc| :: (doc + [l])[i] == doc[i];
  }

  lemma GovernsEnd(doc: seq<Line>, l: Line, h: nat)
    ensures Governs(doc + [l], h, |doc| + 1) <==> if l.Header? then h == |doc| else Governs(doc, h, |doc|)
  {
    assert forall i: nat | i < |doc| :: (doc + [l])[i] == doc[i];
    assert (doc + [l])[|doc|] == l;
  }

  /** The rule that line `l` adds after `doc`. */
  ghost predicate Adds(doc: seq<Line>, l: Line, r: Rule) {
    l.Entry? && exists h: nat :: Governs(doc, h, |doc|) && r == Rule(doc[h].kind, doc[h].name, l.user, l.operation)
  }

  lemma PrintedNext(doc: seq<Line>, l: Line, r: Rule)
    ensures Printed(doc + [l], r) <==> Printed(doc, r) || Adds(doc, l, r)
  {
    hide Governs;
    var more, n := doc + [l], |doc|;
    forall h: nat, e: nat | e <= n ensures Governs(more, h, e) <==> Governs(doc, h, e) { GovernsFront(doc, l, h, e); }
    GovernsIn(doc);
    GovernsIn(more);
    assert forall i: nat | i < n :: more[i] == doc[i];
    if Printed(doc, r) {
      var h: nat, e: nat :| Governs(doc, h, e) && e < n && doc[e].Entry? &&
        r == Rule(doc[h].kind, doc[h].name, doc[e].user, doc[e].operation);
      assert Governs(more, h, e) && more[e] == doc[e] && more[h] == doc[h];
    }
    if Adds(doc, l, r) {
      var h: nat :| Governs(doc, h, n) && r == Rule(doc[h].kind, doc[h].name, l.user, l.operation);
      assert Governs(more, h, n) && more[n] == l && more[h] == doc[h];
    }
    if Printed(more, r) {
      var h: nat, e: nat :| Governs(more, h, e) && e < n + 1 && more[e].Entry? &&
        r == Rule(more[h].kind, more[h].name, more[e].user, more[e].operation);
      assert Governs(doc, h, e);
      assert more[h] == doc[h];
    }
  }

  lemma GovernsIn(doc: seq<Line>)
    ensures forall h: nat, e: nat | Governs(doc, h, e) :: h < e <= |doc| && doc[h].Header?
  {
  }

  lemma RemembersNext(m: Memory, doc: seq<Line>, l: Line)
    requires Remembers(m, doc) && CleanLine(l)
    ensures Remembers(ParseLine(m, Print(l)), doc + [l])
    ensures forall r :: r in ParseLine(m, Print(l)).rules <==> r in m.rules || Adds(doc, l, r)
  {
    hide Search, Print, Governs, CleanLine;
    forall h: nat ensures Governs(doc + [l], h, |doc| + 1) <==>
      if l.Header? then h == |doc| else Governs(doc, h, |doc|)
    {
      GovernsEnd(doc, l, h);
    }
    GovernsIn(doc);
    GovernsIn(doc + [l]);
    assert forall i: nat | i < |doc| :: (doc + [l])[i] == doc[i];
    assert (doc + [l])[|doc|] == l && |doc + [l]| == |doc| + 1;
    match l
    case Header(lead, kind, name, close) =>
      HeaderFinds(lead, kind, name, close);
      GovernsEnd(doc, l, |doc|);
    case Entry(lead, user, host, operation, close) =>
      EntryFinds(lead, user, host, operation, close);
      if m.kind.Some? {
        var h: nat :| Governs(doc, h, |doc|);
        assert Governs(doc + [l], h, |doc| + 1);
      }
    case Noise(text) =>
      NoiseParses(m, text);
      if m.kind.Some? {
        var h: nat :| Governs(doc, h, |doc|);
        assert Governs(doc + [l], h, |doc| + 1);
      }
  }

  lemma NoiseParses(m: Memory, text: string)
    requires CleanLine(Noise(text))
    ensures ParseLine(m, Print(Noise(text))) == m
  {
    hide Search;
    NoiseFinds(text);
  }

  lemma {:induction false} FoldRemembers(doc: seq<Line>)
    requires forall l | l in doc :: CleanLine(l)
    ensures Remembers(ParseLines(PrintAll(doc)), doc)
    ensures forall r :: r in ParseLines(PrintAll(doc)).rules <==> Printed(doc, r)
    decreases |doc|
  {
    hide ParseLine, Print, CleanLine, Adds, Printed, Remembers;
    if doc == [] {
      NothingPrinted();
    } else {
      var n := |doc| - 1;
      var front, l := doc[..n], doc[n];
      assert doc == front + [l] && PrintAll(doc)[..n] == PrintAll(front);
      FoldRemembers(front);
      var m := ParseLines(PrintAll(front));
      RemembersNext(m, front, l);
      forall r ensures r in ParseLines(PrintAll(doc)).rules <==> Printed(doc, r) { PrintedNext(front, l, r); }
    }
  }

  lemma NothingPrinted()
    ensures Remembers(Memory(None, None, None, {}), []) && forall r :: !Printed([], r)
  {
  }

  /** The parser recovers exactly the rules that were printed, each with the resource it stands under,
      from any sequence of resource lines, rule lines and lines without the parser's keys. */
  lemma ParserRecoversListing(doc: seq<Line>)
    requires forall l | l in doc :: CleanLine(l)
    ensures forall r :: r in ParseLines(PrintAll(doc)).rules <==> Printed(doc, r)
  {
    FoldRemembers(doc);
  }

  /** The user of a rule reads back as it is exactly when it has no comma; one that has, such as a
      distinguished name of several components, reads back with its first component only. */
  lemma CommaCuts(lead: string, user: string, host: string, operation: string, close: string)
    requires NoEquals(lead) && NoComma(lead) && user != "" && user[0] != ','
    ensures var found := Search(Print(Entry(lead, user, host, operation, close)), "principal=User:");
            && found == Some(user[..IndexOf(user, ',')])
            && (found == Some(user) <==> NoComma(user))
  {
    hide Search, Find, Join;
    var after := Join([" host=" + host, " operation=" + operation, " permissionType=" + close], ',');
    var s, w := Print(Entry(lead, user, host, operation, close)), lead + "principal=User:";
    assert s == w + user + "," + after by {
      var ws := EntryParts(lead, user, host, operation, close);
      JoinStep(ws, ',');
      assert ws[1..] == [" host=" + host, " operation=" + operation, " permissionType=" + close];
    }
    UserCut(lead, user, after);
    if NoComma(user) { assert user[..|user|] == user; }
  }

  lemma UserCut(lead: string, user: string, after: string)
    requires NoEquals(lead) && NoComma(lead) && user != "" && user[0] != ','
    ensures Search(lead + "principal=User:" + user + "," + after, "principal=User:") == Some(user[..IndexOf(user, ',')])
  {
    hide Search, Find;
    var i := IndexOf(user, ',');
    var first, w := user[..i], lead + "principal=User:";
    var rest := UserRest(user, after);
    assert w + user + "," + after == w + (user + "," + after) == w + (first + "," + rest) == w + first + "," + rest;
    Keys();
    FindHere(lead, "principal", "User:", first);
    assert lead + "principal" + "=" + "User:" + first == w + first;
    SearchComma(w + first, rest, "principal=User:");
  }

  function UserRest(user: string, after: string): (rest: string)
    ensures user + "," + after == user[..IndexOf(user, ',')] + "," + rest
  {
    var i := IndexOf(user, ',');
    if i == |user| then assert user[..i] == user; after
    else
      assert user == user[..i] + [user[i]] + user[i + 1..];
      user[i + 1..] + "," + after
  }
}
