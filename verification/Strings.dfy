/** Strings as Python splits, joins and renders them. */
module Strings {

  // ---- Splitting and joining on one character ----

  /** The position of the first `c`, or the length. */
  function IndexOf(s: string, c: char): (i: nat)
    ensures i <= |s|
    ensures c !in s[..i]
    ensures i < |s| ==> s[i] == c
    ensures i == |s| <==> c !in s
  {
    if s == "" then 0 else if s[0] == c then 0
    else
      var i := IndexOf(s[1..], c);
      assert s[..i + 1] == [s[0]] + s[1..][..i] && s == [s[0]] + s[1..];
      i + 1
  }

  function Split(s: string, c: char): (parts: seq<string>)
    ensures parts != []
    ensures forall p | p in parts :: c !in p
    decreases |s|
  {
    var i := IndexOf(s, c);
    if i == |s| then [s] else [s[..i]] + Split(s[i + 1..], c)
  }

  function Join(parts: seq<string>, c: char): string
    requires parts != []
  {
    if |parts| == 1 then parts[0] else parts[0] + [c] + Join(parts[1..], c)
  }

  lemma {:induction false} JoinSplit(s: string, c: char)
    ensures Join(Split(s, c), c) == s
    decreases |s|
  {
    hide Split, IndexOf, Join;
    var i := IndexOf(s, c);
    SplitStep(s, c);
    JoinStep(Split(s, c), c);
    if i < |s| {
      JoinSplit(s[i + 1..], c);
      assert Split(s, c)[1..] == Split(s[i + 1..], c);
      assert s == s[..i] + [c] + s[i + 1..];
    }
  }

  lemma JoinStep(parts: seq<string>, c: char)
    requires parts != []
    ensures Join(parts, c) == if |parts| == 1 then parts[0] else parts[0] + [c] + Join(parts[1..], c)
  {
  }

  lemma IndexIn(p: string, c: char, rest: string)
    requires c !in p
    ensures IndexOf(p, c) == |p| && IndexOf(p + [c] + rest, c) == |p|
  {
    var s := p + [c] + rest;
    var i := IndexOf(s, c);
    assert s[|p|] == c && s[..|p|] == p;
    assert forall j: nat | j < |p| :: s[j] == p[j] && s[j] != c;
    assert forall j: nat | j < i :: s[j] == s[..i][j] && s[j] != c;
  }

  lemma IndexAtEnd(s: string, c: char, tail: string)
    requires c !in s && (tail == "" || tail[0] == c)
    ensures IndexOf(s + tail, c) == |s|
  {
    hide IndexOf;
    if tail == "" {
      IndexIn(s, c, "");
      assert s + tail == s;
    } else {
      IndexIn(s, c, tail[1..]);
      assert s + tail == s + [c] + tail[1..];
    }
  }

  lemma {:induction false} SplitJoin(parts: seq<string>, c: char)
    requires parts != [] && forall p | p in parts :: c !in p
    ensures Split(Join(parts, c), c) == parts
    decreases |parts|
  {
    assert parts == [parts[0]] + parts[1..];
    if |parts| == 1 {
      IndexIn(parts[0], c, "");
    } else {
      var rest := Join(parts[1..], c);
      IndexIn(parts[0], c, rest);
      SplitJoin(parts[1..], c);
      var s := parts[0] + [c] + rest;
      assert s[..|parts[0]|] == parts[0] && s[|parts[0]| + 1..] == rest;
    }
  }

  lemma {:induction false} JoinSnoc(parts: seq<string>, last: string, c: char)
    requires parts != []
    ensures Join(parts + [last], c) == Join(parts, c) + [c] + last
    decreases |parts|
  {
    if |parts| > 1 {
      assert (parts + [last])[1..] == parts[1..] + [last];
      JoinSnoc(parts[1..], last, c);
    } else {
      assert (parts + [last])[1..] == [last];
    }
  }

  lemma SplitStep(s: string, c: char)
    ensures var i := IndexOf(s, c);
            Split(s, c) == if i == |s| then [s] else [s[..i]] + Split(s[i + 1..], c)
  {
  }

  /** Splitting distributes over a separator. */
  lemma {:induction false} SplitAt(s: string, c: char, more: string)
    ensures Split(s + [c] + more, c) == Split(s, c) + Split(more, c)
    decreases |s|
  {
    hide Split, IndexOf;
    var i := IndexOf(s, c);
    SplitStep(s, c);
    SplitStep(s + [c] + more, c);
    if i == |s| {
      IndexIn(s, c, more);
      Cut(s, c, more);
    } else {
      var tail := s[i + 1..] + [c] + more;
      Regroup(s, i, c, more);
      IndexIn(s[..i], c, tail);
      Cut(s[..i], c, tail);
      SplitAt(s[i + 1..], c, more);
      assert [s[..i]] + (Split(s[i + 1..], c) + Split(more, c)) == [s[..i]] + Split(s[i + 1..], c) + Split(more, c);
    }
  }

  lemma Regroup(s: string, i: nat, c: char, more: string)
    requires i < |s| && s[i] == c
    ensures s + [c] + more == s[..i] + [c] + (s[i + 1..] + [c] + more)
  {
    assert s == s[..i] + [c] + s[i + 1..];
  }

  lemma Cut(s: string, c: char, more: string)
    ensures (s + [c] + more)[..|s|] == s && (s + [c] + more)[|s| + 1..] == more
  {
  }

  lemma SplitOne(s: string, c: char)
    requires c !in s
    ensures Split(s, c) == [s]
  {
    SplitJoin([s], c);
  }

  // ---- Decimal rendering ----

  predicate IsDigit(c: char) { '0' <= c <= '9' }

  predicate AllDigits(s: string) { forall c | c in s :: IsDigit(c) }

  function Decimal(n: nat): (s: string)
    ensures s != "" && AllDigits(s)
  {
    var digit := [('0' as int + n % 10) as char];
    if n < 10 then digit else Decimal(n / 10) + digit
  }

  /** The number a digit string stands for, leading zeros allowed. */
  function Value(s: string): nat
    requires AllDigits(s)
  {
    if s == "" then 0 else
      assert s[|s| - 1] in s && forall c | c in s[..|s| - 1] :: c in s;
      10 * Value(s[..|s| - 1]) + (s[|s| - 1] as int - '0' as int)
  }

  lemma {:induction false} ValueOfDecimal(n: nat)
    ensures Value(Decimal(n)) == n
  {
    var d, s := ('0' as int + n % 10) as char, Decimal(n);
    assert s[|s| - 1] == d;
    if n >= 10 {
      ValueOfDecimal(n / 10);
      assert s[..|s| - 1] == Decimal(n / 10);
    } else {
      assert s[..|s| - 1] == "";
    }
  }

  lemma DecimalInjective(m: nat, n: nat)
    requires Decimal(m) == Decimal(n)
    ensures m == n
  {
    ValueOfDecimal(m);
    ValueOfDecimal(n);
  }

  predicate StartsWith(s: string, prefix: string) {
    |prefix| <= |s| && s[..|prefix|] == prefix
  }
}
