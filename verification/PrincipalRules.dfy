/** The rules that map certificate names to principals: splitting a list of rules and parsing each.
    Python's regular expressions are modelled on strings without line breaks, where they leave no choice to
    backtracking. */
module PrincipalRules {
  import opened Strings

  datatype Case = Keep | Lower | Upper

  datatype Rule = Default | Rule(pattern: string, replacement: string, fold: Case)

  datatype Result<T> = Ok(value: T) | Err(text: string)

  // ---- The pieces of the regular expressions ----

  predicate OneLine(s: string) { '\n' !in s }

  predicate IsSpace(c: char) { c in {' ', '\t', '\r', 0x0B as char, 0x0C as char} }

  /** `\s*` at the front. */
  function Trim(s: string): (t: string)
    ensures |t| <= |s|
    ensures t != "" ==> !IsSpace(t[0])
  {
    if s != "" && IsSpace(s[0]) then Trim(s[1..]) else s
  }

  function TrimEnd(s: string): string {
    if s != "" && IsSpace(s[|s| - 1]) then TrimEnd(s[..|s| - 1]) else s
  }

  /** `\s*(,\s*|$)` matches here. */
  predicate Ends(s: string) { Trim(s) == "" || Trim(s)[0] == ',' }

  /** What is left after it. */
  function Rest(s: string): (r: string)
    requires Ends(s)
    ensures s != "" ==> |r| < |s|
  {
    if Trim(s) == "" then "" else Trim(Trim(s)[1..])
  }

  /** How far `.*?` runs before the end of a rule. */
  function Lazy(s: string): (n: nat)
    ensures n <= |s| && Ends(s[n..])
    ensures Ends(s) ==> n == 0
  {
    if Ends(s) then 0 else 1 + Lazy(s[1..])
  }

  /** How far `(\\.|[^\\/])*` runs: to the first slash that is not escaped, or a lone backslash at the end. */
  function BodyLength(s: string): (n: nat)
    ensures n <= |s|
    ensures n < |s| ==> s[n] == '/' || (s[n] == '\\' && n == |s| - 1)
  {
    if s == "" || s[0] == '/' then 0
    else if s[0] == '\\' then (if |s| >= 2 then 2 + BodyLength(s[2..]) else 0)
    else 1 + BodyLength(s[1..])
  }

  function RuleWord(): (w: string)
    ensures |w| == 5 && w[0] == 'R'
  {
    "RULE:"
  }

  function DefaultWord(): (w: string)
    ensures |w| == 7 && w[0] == 'D'
  {
    "DEFAULT"
  }

  datatype Shape = NoRule | RuleShape(pattern: nat, replacement: nat, length: nat)

  /** `RULE:body/body/[LU]?`: the lengths of the two bodies and of the whole. */
  function ShapeOf(s: string): (r: Shape)
    ensures r.RuleShape? ==> 7 + r.pattern + r.replacement <= r.length <= |s|
    ensures r.RuleShape? ==>
              StartsWith(s, RuleWord()) && s[5 + r.pattern] == '/' && s[6 + r.pattern + r.replacement] == '/'
  {
    if !StartsWith(s, RuleWord()) then NoRule
    else
      var m := BodyLength(s[5..]);
      if 5 + m == |s| || s[5 + m] != '/' then NoRule
      else
        var n := BodyLength(s[6 + m..]);
        if 6 + m + n == |s| || s[6 + m + n] != '/' then NoRule
        else if 7 + m + n < |s| && s[7 + m + n] in {'L', 'U'} then RuleShape(m, n, 8 + m + n)
        else RuleShape(m, n, 7 + m + n)
  }

  // ---- Splitting ----

  /** The length of the first rule of a list that starts without spaces. */
  function FirstLength(s: string): (n: nat)
    ensures n <= |s| && Ends(s[n..])
  {
    if StartsWith(s, DefaultWord()) && Ends(s[7..]) then 7
    else if ShapeOf(s).RuleShape? then
      var n := ShapeOf(s).length;
      var more := Lazy(s[n..]);
      assert s[n..][more..] == s[n + more..];
      n + more
    else Lazy(s)
  }

  /** The matches one after the other; the last one is the empty match at the end of the string. */
  function Splits(s: string): seq<string>
    decreases |s|
  {
    if s == "" then [""]
    else
      var t := Trim(s);
      var n := FirstLength(t);
      [t[..n]] + Splits(Rest(t[n..]))
  }

  method SplitRules(rules: string) returns (r: seq<string>)
    requires OneLine(rules)
    ensures r == Splits(TrimEnd(Trim(rules)))
  {
    var s := TrimEnd(Trim(rules));
    var left := s;
    r := [];
    hide Splits, FirstLength, Ends, Rest, Trim;
    while left != ""
      invariant Splits(s) == r + Splits(left)
      decreases |left|
    {
      SplitsStep(left);
      var t := Trim(left);
      var n := FirstLength(t);
      r := r + [t[..n]];
      left := Rest(t[n..]);
    }
    SplitsStep("");
    r := r + [""];
  }

  lemma SplitsStep(s: string)
    ensures s != "" ==>
              var t := Trim(s);
              var n := FirstLength(t);
              Splits(s) == [t[..n]] + Splits(Rest(t[n..])) && |Rest(t[n..])| < |s|
    ensures s == "" ==> Splits(s) == [""]
  {
    hide FirstLength;
  }

  // ---- Parsing ----

  function FoldOf(s: string, shape: Shape): Case
    requires shape.RuleShape? && shape.length <= |s| && 7 + shape.pattern + shape.replacement <= shape.length
  {
    if shape.length == 7 + shape.pattern + shape.replacement then Keep
    else if s[shape.length - 1] == 'L' then Lower else Upper
  }

  function RuleOf(s: string, shape: Shape): Rule
    requires shape.RuleShape? && shape.length <= |s| && 7 + shape.pattern + shape.replacement <= shape.length
  {
    Rule(s[5..5 + shape.pattern], s[6 + shape.pattern..6 + shape.pattern + shape.replacement], FoldOf(s, shape))
  }

  /** Which patterns Python's regular expressions compile. */
  type Compiler = string -> bool

  /** A rule keeps its pattern compiled, unless it is empty; one that does not compile is an error. */
  predicate Compiles(compiler: Compiler, r: Rule) { r.Default? || r.pattern == "" || compiler(r.pattern) }

  /** One rule, which the expression must consume whole; an empty one makes no rule. */
  function ParseRule(compiler: Compiler, s: string): Result<seq<Rule>> {
    if StartsWith(s, DefaultWord()) then (if |s| == 7 then Ok([Default]) else Err(s))
    else
      var shape := ShapeOf(s);
      if shape.RuleShape? then
        var r := RuleOf(s, shape);
        if shape.length == |s| && Compiles(compiler, r) then Ok([r]) else Err(s)
      else if s == "" then Ok([]) else Err(s)
  }

  function Before(rules: seq<Rule>, r: Result<seq<Rule>>): Result<seq<Rule>> {
    match r
    case Ok(others) => Ok(rules + others)
    case Err(text) => Err(text)
  }

  function ParseAll(compiler: Compiler, ss: seq<string>): Result<seq<Rule>> {
    if ss == [] then Ok([])
    else
      match ParseRule(compiler, ss[0])
      case Err(text) => Err(text)
      case Ok(first) => Before(first, ParseAll(compiler, ss[1..]))
  }

  method ParseRules(compiler: Compiler, ss: seq<string>) returns (r: Result<seq<Rule>>)
    requires forall s | s in ss :: OneLine(s)
    ensures r == ParseAll(compiler, ss)
  {
    var rules: seq<Rule> := [];
    assert ss[0..] == ss;
    BeforeTwice([], [], ParseAll(compiler, ss));
    for i := 0 to |ss|
      invariant ParseAll(compiler, ss) == Before(rules, ParseAll(compiler, ss[i..]))
    {
      assert ss[i..][1..] == ss[i + 1..];
      match ParseRule(compiler, ss[i])
      case Err(text) => return Err(text);
      case Ok(first) =>
        BeforeTwice(rules, first, ParseAll(compiler, ss[i + 1..]));
        rules := rules + first;
    }
    assert ss[|ss|..] == [] && rules + [] == rules;
    return Ok(rules);
  }

  lemma BeforeTwice(a: seq<Rule>, b: seq<Rule>, r: Result<seq<Rule>>)
    ensures Before(a, Before(b, r)) == Before(a + b, r)
    ensures Before([], r) == r
  {
    if r.Ok? { assert a + (b + r.value) == a + b + r.value && [] + r.value == r.value; }
  }

  // ---- Printing ----

  /** Backslashes come in pairs with what they escape, and no slash stands bare. */
  predicate GoodBody(b: string) {
    b == ""
    || (b[0] == '\\' && |b| >= 2 && GoodBody(b[2..]))
    || (b[0] != '\\' && b[0] != '/' && GoodBody(b[1..]))
  }

  /** A rule that can be written down and parsed. */
  predicate UsableRule(compiler: Compiler, r: Rule) { GoodRule(r) && Compiles(compiler, r) }

  predicate GoodRule(r: Rule) {
    r.Default? || (&& GoodBody(r.pattern) && OneLine(r.pattern)
                   && GoodBody(r.replacement) && OneLine(r.replacement))
  }

  function Flag(fold: Case): string {
    match fold
    case Keep => ""
    case Lower => "L"
    case Upper => "U"
  }

  lemma WrittenForm(p: string, q: string)
    ensures Print(Default) == "DEFAULT" && Print(Rule(p, q, Keep)) == "RULE:" + (p + "/" + (q + "/"))
    ensures Print(Rule(p, q, Lower)) == "RULE:" + (p + "/" + (q + "/L"))
    ensures Print(Rule(p, q, Upper)) == "RULE:" + (p + "/" + (q + "/U"))
  {
    PrintIs(Rule(p, q, Keep));
    PrintIs(Rule(p, q, Lower));
    PrintIs(Rule(p, q, Upper));
    assert "/" + "" == "/" && "/" + "L" == "/L" && "/" + "U" == "/U";
  }

  function Print(r: Rule): string {
    match r
    case Default => DefaultWord()
    case Rule(pattern, replacement, fold) => RuleWord() + pattern + "/" + replacement + "/" + Flag(fold)
  }

  function PrintAll(rules: seq<Rule>): string {
    if rules == [] then "" else if |rules| == 1 then Print(rules[0]) else Print(rules[0]) + ", " + PrintAll(rules[1..])
  }

  lemma {:induction false} BodyBack(b: string, more: string)
    requires GoodBody(b)
    ensures BodyLength(b + "/" + more) == |b|
    decreases |b|
  {
    var s := b + "/" + more;
    if b == "" {
      assert s[0] == '/';
    } else if b[0] == '\\' {
      assert s[2..] == b[2..] + "/" + more;
      BodyBack(b[2..], more);
    } else {
      assert s[1..] == b[1..] + "/" + more;
      BodyBack(b[1..], more);
    }
  }

  lemma {:induction false} BodyGood(s: string)
    ensures BodyLength(s) < |s| && s[BodyLength(s)] == '/' ==> GoodBody(s[..BodyLength(s)])
    decreases |s|
  {
    var n := BodyLength(s);
    if n < |s| && s[n] == '/' && n > 0 {
      if s[0] == '\\' {
        BodyGood(s[2..]);
        assert s[..n][2..] == s[2..][..n - 2];
      } else {
        BodyGood(s[1..]);
        assert s[..n][1..] == s[1..][..n - 1];
      }
    }
  }

  lemma ShapeParts(p: string, q: string, tail: string)
    requires GoodBody(p) && GoodBody(q)
    ensures ShapeOf(RuleWord() + (p + "/" + (q + "/" + tail)))
            == RuleShape(|p|, |q|, 7 + |p| + |q| + if tail != "" && tail[0] in {'L', 'U'} then 1 else 0)
  {
    hide BodyLength, GoodBody, RuleWord, StartsWith;
    var s := RuleWord() + (p + "/" + (q + "/" + tail));
    Slices(RuleWord(), p, q, tail);
    BodyBack(p, q + "/" + tail);
    BodyBack(q, tail);
    assert p + "/" + (q + "/" + tail) == s[5..] && q + "/" + tail == s[6 + |p|..];
    assert StartsWith(s, RuleWord()) by { StartsBy(RuleWord(), p + "/" + (q + "/" + tail)); }
    assert tail != "" ==> s[7 + |p| + |q|] == s[7 + |p| + |q|..][0];
  }

  lemma StartsBy(s: string, more: string)
    ensures StartsWith(s + more, s)
  {
  }

  lemma PrintParts(r: Rule, more: string)
    requires r.Rule?
    ensures Print(r) + more == RuleWord() + (r.pattern + "/" + (r.replacement + "/" + (Flag(r.fold) + more)))
  {
  }

  /** A printed rule, with something behind it that is no flag, has the shape it was printed in. */
  lemma ShapeBack(r: Rule, more: string)
    requires r.Rule? && GoodRule(r) && (more == "" || more[0] !in {'L', 'U'})
    ensures ShapeOf(Print(r) + more) == RuleShape(|r.pattern|, |r.replacement|, |Print(r)|)
    ensures !StartsWith(Print(r) + more, DefaultWord())
  {
    hide ShapeOf, GoodBody, RuleWord, DefaultWord;
    PrintParts(r, more);
    ShapeParts(r.pattern, r.replacement, Flag(r.fold) + more);
    OtherStart(Print(r) + more, DefaultWord());
  }

  lemma OtherStart(s: string, prefix: string)
    requires s != "" && prefix != "" && s[0] != prefix[0]
    ensures !StartsWith(s, prefix)
  {
    assert |prefix| <= |s| ==> s[..|prefix|][0] == s[0];
  }

  lemma Slices(h: string, p: string, q: string, tail: string)
    ensures var s, m, n := h + (p + "/" + (q + "/" + tail)), |h| + |p|, |h| + |p| + 1 + |q|;
            && |s| == n + 1 + |tail| && s[..|h|] == h && s[|h|..m] == p && s[m + 1..n] == q && s[n + 1..] == tail
            && s[m] == '/' && s[n] == '/' && s[|h|..] == p + "/" + (q + "/" + tail) && s[m + 1..] == q + "/" + tail
  {
  }

  lemma Unslice(s: string, h: nat, m: nat, n: nat)
    requires h <= m < n < |s| && s[m] == '/' && s[n] == '/'
    ensures s == s[..h] + (s[h..m] + "/" + (s[m + 1..n] + "/" + s[n + 1..]))
  {
    assert s == s[..h] + s[h..m] + [s[m]] + s[m + 1..n] + [s[n]] + s[n + 1..];
  }

  // ---- The round trip ----

  /** White space within a line. */
  predicate Spaces(s: string) {
    forall c | c in s :: c == ' ' || c == '\t' || c == '\r' || c == 0x0B as char || c == 0x0C as char
  }

  /** What stands around a comma. */
  datatype Gap = Gap(before: string, after: string)

  function Comma(gap: Gap, rest: string): string { gap.before + ("," + (gap.after + rest)) }

  predicate GoodGap(gap: Gap) { Spaces(gap.before) && Spaces(gap.after) }

  lemma {:induction false} TrimSpaces(spaces: string, rest: string)
    requires Spaces(spaces)
    ensures Trim(spaces + rest) == Trim(rest)
  {
    if spaces == "" {
      assert spaces + rest == rest;
    } else {
      assert spaces[0] in spaces && (spaces + rest)[1..] == spaces[1..] + rest;
      assert forall c | c in spaces[1..] :: c in spaces;
      TrimSpaces(spaces[1..], rest);
    }
  }

  /** A comma with white space around it ends a rule, and nothing of it is left. */
  lemma CommaEnds(gap: Gap, rest: string)
    requires GoodGap(gap)
    ensures var more := Comma(gap, rest);
            && more != "" && more[0] !in {'L', 'U'} && Ends(more) && Rest(more) == Trim(rest)
            && Trim(more) == "," + (gap.after + rest) && Ends(Trim(more)) && Rest(Trim(more)) == Trim(rest)
  {
    var tail := "," + (gap.after + rest);
    assert !IsSpace(',') && tail[0] == ',' && tail[1..] == gap.after + rest;
    TrimSpaces(gap.before, tail);
    TrimSpaces(gap.after, rest);
    assert gap.before != "" ==> Comma(gap, rest)[0] == gap.before[0] && gap.before[0] in gap.before;
    assert gap.before == "" ==> Comma(gap, rest) == tail;
  }

  lemma NothingEnds()
    ensures Ends("") && Rest("") == ""
  {
  }

  /** The first of the written rules comes off the list whole. */
  lemma FirstBack(r: Rule, more: string)
    requires GoodRule(r) && Ends(more) && (more == "" || more[0] !in {'L', 'U'})
    ensures Trim(Print(r) + more) == Print(r) + more && FirstLength(Print(r) + more) == |Print(r)|
  {
    var s := Print(r) + more;
    assert s[0] == Print(r)[0] && !IsSpace(s[0]);
    assert s[|Print(r)|..] == more && s[..|Print(r)|] == Print(r);
    hide ShapeOf, GoodRule, Ends, Print, Lazy, RuleWord, DefaultWord;
    if r.Rule? { ShapeBack(r, more); } else { PrintDefault(); }
  }

  lemma PrintDefault()
    ensures Print(Default) == DefaultWord()
  {
  }

  lemma PrintStart(r: Rule)
    ensures Print(r) != "" && !IsSpace(Print(r)[0]) && !IsSpace(Print(r)[|Print(r)| - 1])
  {
  }

  /** A list may have empty places. */
  datatype Item = Item(rule: Rule) | Nothing

  function Written(item: Item): string { if item.Item? then Print(item.rule) else "" }

  function Listed(items: seq<Item>, gaps: seq<Gap>): string
    requires |items| == |gaps| + 1
  {
    if gaps == [] then Written(items[0]) else Written(items[0]) + Comma(gaps[0], Listed(items[1..], gaps[1..]))
  }

  function Present(items: seq<Item>): seq<Rule> {
    if items == [] then [] else (if items[0].Item? then [items[0].rule] else []) + Present(items[1..])
  }

  function Pieces(items: seq<Item>): seq<string> {
    if items == [] then [""] else [Written(items[0])] + Pieces(items[1..])
  }

  /** An empty place comes off the list as such. */
  lemma NothingBack(gap: Gap, rest: string)
    requires GoodGap(gap)
    ensures FirstLength(Trim(Comma(gap, rest))) == 0
  {
    CommaEnds(gap, rest);
    var t := Trim(Comma(gap, rest));
    hide Trim, Ends, Comma;
    assert t[0] == ',';
    OtherStart(t, DefaultWord());
    OtherStart(t, RuleWord());
  }

  lemma TrimTwice(s: string)
    ensures Trim(Trim(s)) == Trim(s)
  {
  }

  lemma SplitsTrim(s: string)
    requires Trim(s) != ""
    ensures Splits(Trim(s)) == Splits(s)
  {
    hide FirstLength, Rest, Splits;
    TrimTwice(s);
    SplitsStep(s);
    SplitsStep(Trim(s));
  }

  lemma {:induction false} SplitsBack(items: seq<Item>, gaps: seq<Gap>)
    requires |items| == |gaps| + 1 && items[|gaps|].Item? && forall gap | gap in gaps :: GoodGap(gap)
    requires forall item | item in items && item.Item? :: GoodRule(item.rule)
    ensures Splits(Listed(items, gaps)) == Pieces(items)
    ensures Trim(Listed(items, gaps)) != ""
    decreases |gaps|
  {
    hide FirstLength, GoodRule, Print, Ends, Trim, Rest, Splits, Comma, GoodGap;
    var s, rest := Listed(items, gaps), if gaps == [] then "" else Listed(items[1..], gaps[1..]);
    var more := if gaps == [] then "" else Comma(gaps[0], rest);
    assert s == Written(items[0]) + more;
    assert items[0] in items;
    NothingEnds();
    if gaps != [] {
      assert gaps[0] in gaps;
      CommaEnds(gaps[0], rest);
      assert items[1..][|gaps| - 1] == items[|gaps|];
      SplitsBack(items[1..], gaps[1..]);
      SplitsTrim(rest);
    }
    SplitsStep(s);
    if items[0].Item? {
      var p := Print(items[0].rule);
      PrintStart(items[0].rule);
      FirstBack(items[0].rule, more);
      assert s[..|p|] == p && s[|p|..] == more;
    } else {
      NothingBack(gaps[0], rest);
      assert s == more && Trim(s)[..0] == "" && Trim(s)[0..] == Trim(s);
    }
    if gaps == [] {
      assert items[1..] == [];
      SplitsStep("");
    }
  }

  /** A printed rule parses to itself; and nothing else parses to it. */
  lemma ParsePrinted(compiler: Compiler, r: Rule)
    requires UsableRule(compiler, r)
    ensures ParseRule(compiler, Print(r)) == Ok([r])
  {
    hide ShapeOf, GoodRule, Print, RuleWord, DefaultWord, StartsWith, FoldOf;
    if r.Rule? {
      assert Print(r) + "" == Print(r);
      ShapeBack(r, "");
      PrintSlices(r);
    } else {
      PrintDefault();
      assert StartsWith(DefaultWord(), DefaultWord()) by { SelfStart(DefaultWord()); }
    }
  }

  lemma SelfStart(s: string)
    ensures StartsWith(s, s)
  {
    assert s[..|s|] == s;
  }

  lemma PrintSlices(r: Rule)
    requires r.Rule?
    ensures var s, m, n := Print(r), |r.pattern|, |r.replacement|;
            && |s| == 7 + m + n + |Flag(r.fold)| && s[5..5 + m] == r.pattern && s[6 + m..6 + m + n] == r.replacement
            && FoldOf(s, RuleShape(m, n, |s|)) == r.fold
  {
    hide RuleWord, Print, Flag;
    PrintIs(r);
    FlagIs(r.fold);
    var flag := Flag(r.fold);
    Slices(RuleWord(), r.pattern, r.replacement, flag);
    var s, n := Print(r), 7 + |r.pattern| + |r.replacement|;
    assert flag != "" ==> s[|s| - 1] == s[n..][0];
  }

  lemma PrintIs(r: Rule)
    requires r.Rule?
    ensures Print(r) == RuleWord() + (r.pattern + "/" + (r.replacement + "/" + Flag(r.fold)))
  {
  }

  lemma FlagIs(fold: Case)
    ensures |Flag(fold)| <= 1 && (Flag(fold) == "" <==> fold.Keep?)
    ensures Flag(fold) != "" ==> Flag(fold)[0] == (if fold.Lower? then 'L' else 'U')
  {
  }

  /** Exactly the printed rules are accepted, besides the empty string; so an accepted rule is consumed
      whole. */
  lemma AcceptedIsPrinted(compiler: Compiler, s: string)
    requires OneLine(s)
    ensures ParseRule(compiler, s).Ok? <==> s == "" || exists r :: UsableRule(compiler, r) && s == Print(r)
  {
    hide GoodRule, Print, ShapeOf, RuleWord, DefaultWord;
    if ParseRule(compiler, s).Ok? && s != "" {
      if StartsWith(s, DefaultWord()) {
        PrintDefault();
        DefaultGood();
        assert s[..7] == s;
      } else {
        ShapeGood(s);
      }
    }
    if r :| UsableRule(compiler, r) && s == Print(r) { ParsePrinted(compiler, r); }
  }

  lemma DefaultGood()
    ensures GoodRule(Default)
  {
  }

  lemma OneLinePart(s: string, i: nat, j: nat)
    requires OneLine(s) && i <= j <= |s|
    ensures OneLine(s[i..j])
  {
  }

  lemma ShapeGood(s: string)
    requires OneLine(s) && ShapeOf(s).RuleShape? && ShapeOf(s).length == |s|
    ensures var m, n := ShapeOf(s).pattern, ShapeOf(s).replacement;
            var r := Rule(s[5..5 + m], s[6 + m..6 + m + n], FoldOf(s, ShapeOf(s)));
            GoodRule(r) && s == Print(r)
  {
    hide *;
    ShapeBodies(s);
    OneLinePart(s, 5, 5 + ShapeOf(s).pattern);
    OneLinePart(s, 6 + ShapeOf(s).pattern, 6 + ShapeOf(s).pattern + ShapeOf(s).replacement);
    FlagTail(s, ShapeOf(s));
    RuleStart(s);
    Rebuilt(s, ShapeOf(s).pattern, ShapeOf(s).replacement, FoldOf(s, ShapeOf(s)));
  }

  lemma Rebuilt(s: string, m: nat, n: nat, fold: Case)
    requires 7 + m + n <= |s| && s[..5] == RuleWord() && s[5 + m] == '/' && s[6 + m + n] == '/' &&
             s[7 + m + n..] == Flag(fold)
    requires GoodBody(s[5..5 + m]) && GoodBody(s[6 + m..6 + m + n])
    requires OneLine(s[5..5 + m]) && OneLine(s[6 + m..6 + m + n])
    ensures var r := Rule(s[5..5 + m], s[6 + m..6 + m + n], fold); GoodRule(r) && s == Print(r)
  {
    hide GoodBody, OneLine, RuleWord, Print, Flag;
    var r := Rule(s[5..5 + m], s[6 + m..6 + m + n], fold);
    PrintIs(r);
    Unslice(s, 5, 5 + m, 6 + m + n);
  }

  lemma RuleStart(s: string)
    requires ShapeOf(s).RuleShape?
    ensures s[..5] == RuleWord()
  {
    hide BodyLength;
  }

  lemma ShapeBodies(s: string)
    requires ShapeOf(s).RuleShape?
    ensures var m, n := ShapeOf(s).pattern, ShapeOf(s).replacement;
            GoodBody(s[5..5 + m]) && GoodBody(s[6 + m..6 + m + n])
  {
    var m := BodyLength(s[5..]);
    var n := BodyLength(s[6 + m..]);
    hide BodyLength, GoodBody, RuleWord;
    BodyGood(s[5..]);
    BodyGood(s[6 + m..]);
    assert s[5..][..m] == s[5..5 + m] && s[6 + m..][..n] == s[6 + m..6 + m + n];
    assert s[5..][m] == s[5 + m] && s[6 + m..][n] == s[6 + m + n];
  }

  lemma FlagTail(s: string, shape: Shape)
    requires ShapeOf(s) == shape && shape.RuleShape? && shape.length == |s|
    ensures s[7 + shape.pattern + shape.replacement..] == Flag(FoldOf(s, shape))
  {
  }

  lemma {:induction false} ParseAllBack(compiler: Compiler, items: seq<Item>)
    requires forall item | item in items && item.Item? :: UsableRule(compiler, item.rule)
    ensures ParseAll(compiler, Pieces(items)) == Ok(Present(items))
    decreases |items|
  {
    hide ParseRule, Print, GoodRule, UsableRule;
    EmptyParses(compiler);
    if items != [] {
      assert items[0] in items;
      assert Pieces(items)[0] == Written(items[0]) && Pieces(items)[1..] == Pieces(items[1..]);
      if items[0].Item? { ParsePrinted(compiler, items[0].rule); }
      ParseAllBack(compiler, items[1..]);
    }
  }

  lemma EmptyParses(compiler: Compiler)
    ensures ParseRule(compiler, "") == Ok([]) && ParseAll(compiler, [""]) == Ok([])
  {
    assert [""][1..] == [];
    assert ParseAll(compiler, [""]) == Before([], ParseAll(compiler, []));
    BeforeTwice([], [], ParseAll(compiler, []));
  }

  lemma {:induction false} LastBack(items: seq<Item>, gaps: seq<Gap>)
    requires |items| == |gaps| + 1 && items[|gaps|].Item?
    ensures Listed(items, gaps) != "" && !IsSpace(Listed(items, gaps)[|Listed(items, gaps)| - 1])
    decreases |gaps|
  {
    hide Print, IsSpace, Comma;
    if gaps == [] {
      PrintStart(items[0].rule);
    } else {
      assert items[1..][|gaps| - 1] == items[|gaps|];
      LastBack(items[1..], gaps[1..]);
      LastStays(Written(items[0]), gaps[0], Listed(items[1..], gaps[1..]));
    }
  }

  lemma LastStays(written: string, gap: Gap, rest: string)
    requires rest != ""
    ensures var s := written + Comma(gap, rest); s != "" && s[|s| - 1] == rest[|rest| - 1]
  {
  }

  lemma {:induction false} TrimEndSpaces(s: string, spaces: string)
    requires Spaces(spaces) && s != "" && !IsSpace(s[|s| - 1])
    ensures TrimEnd(s + spaces) == s
    decreases |spaces|
  {
    if spaces == "" {
      assert s + spaces == s;
    } else {
      var n := |spaces| - 1;
      assert spaces[n] in spaces && (s + spaces)[|s + spaces| - 1] == spaces[n];
      assert (s + spaces)[..|s + spaces| - 1] == s + spaces[..n];
      assert forall c | c in spaces[..n] :: c in spaces;
      TrimEndSpaces(s, spaces[..n]);
    }
  }

  /** However a list is spaced, and whichever of its inner places are empty: splitting and parsing give the
      rules back in order.  Their patterns and replacements may hold commas and spaces. */
  lemma SpacedRoundTrip(compiler: Compiler, items: seq<Item>, gaps: seq<Gap>, lead: string, trail: string)
    requires |items| == |gaps| + 1 && items[0].Item? && items[|gaps|].Item?
    requires forall item | item in items && item.Item? :: UsableRule(compiler, item.rule)
    requires Spaces(lead) && Spaces(trail) && forall gap | gap in gaps :: Spaces(gap.before) && Spaces(gap.after)
    ensures ParseAll(compiler, Splits(TrimEnd(Trim(lead + (Listed(items, gaps) + trail))))) == Ok(Present(items))
  {
    hide GoodRule, Print, Splits, IsSpace, Comma;
    var text := Listed(items, gaps);
    PrintStart(items[0].rule);
    LastBack(items, gaps);
    assert text[0] == Print(items[0].rule)[0] && (text + trail)[0] == text[0];
    TrimSpaces(lead, text + trail);
    assert Trim(text + trail) == text + trail;
    hide Trim;
    TrimEndSpaces(text, trail);
    SplitsBack(items, gaps);
    ParseAllBack(compiler, items);
  }

  /** In particular when they are printed with a comma and a space between them. */
  lemma RulesRoundTrip(compiler: Compiler, rules: seq<Rule>)
    requires forall r | r in rules :: UsableRule(compiler, r)
    ensures ParseAll(compiler, Splits(TrimEnd(Trim(PrintAll(rules))))) == Ok(rules)
  {
    hide GoodRule, Print, Splits, UsableRule;
    if rules == [] {
      EmptyParses(compiler);
      SplitsStep("");
    } else {
      var items := seq(|rules|, i requires 0 <= i < |rules| => Item(rules[i]));
      var gaps := seq(|rules| - 1, i => Gap("", " "));
      PrintedAsListed(rules, items, gaps);
      forall item | item in items ensures UsableRule(compiler, item.rule) {
        var i :| 0 <= i < |items| && items[i] == item;
        assert rules[i] in rules;
      }
      assert "" + (PrintAll(rules) + "") == PrintAll(rules);
      SpacedRoundTrip(compiler, items, gaps, "", "");
    }
  }

  lemma {:induction false} PrintedAsListed(rules: seq<Rule>, items: seq<Item>, gaps: seq<Gap>)
    requires rules != [] && |items| == |rules| == |gaps| + 1
    requires forall i: nat | i < |rules| :: items[i] == Item(rules[i])
    requires forall i: nat | i < |gaps| :: gaps[i] == Gap("", " ")
    ensures Listed(items, gaps) == PrintAll(rules) && Present(items) == rules
    decreases |rules|
  {
    hide Print;
    if gaps == [] {
      assert items[1..] == [] && rules == [rules[0]];
    } else {
      PrintedAsListed(rules[1..], items[1..], gaps[1..]);
      var rest := PrintAll(rules[1..]);
      assert Comma(gaps[0], rest) == ", " + rest;
      assert rules == [rules[0]] + rules[1..];
    }
  }

  lemma {:induction false} ParsedAreGood(compiler: Compiler, ss: seq<string>)
    requires ParseAll(compiler, ss).Ok? && forall s | s in ss :: OneLine(s)
    ensures forall r | r in ParseAll(compiler, ss).value :: UsableRule(compiler, r)
    decreases |ss|
  {
    if ss != [] {
      ParsedAreGood(compiler, ss[1..]);
      ParsedIsGood(compiler, ss[0]);
    }
  }

  lemma ParsedIsGood(compiler: Compiler, s: string)
    requires ParseRule(compiler, s).Ok? && OneLine(s)
    ensures forall r | r in ParseRule(compiler, s).value :: UsableRule(compiler, r)
  {
    hide ShapeOf, GoodRule, Print, StartsWith, DefaultWord, FoldOf, OneLine;
    DefaultGood();
    if ShapeOf(s).RuleShape? && ShapeOf(s).length == |s| { ShapeGood(s); }
  }

  lemma {:induction false} TrimWithin(s: string)
    requires OneLine(s)
    ensures OneLine(Trim(s))
  {
    if s != "" && IsSpace(s[0]) { TrimWithin(s[1..]); }
  }

  lemma {:induction false} TrimEndWithin(s: string)
    requires OneLine(s)
    ensures OneLine(TrimEnd(s))
    decreases |s|
  {
    if s != "" && IsSpace(s[|s| - 1]) { TrimEndWithin(s[..|s| - 1]); }
  }

  lemma {:induction false} SplitsOneLine(s: string)
    requires OneLine(s)
    ensures forall p | p in Splits(s) :: OneLine(p)
    decreases |s|
  {
    hide FirstLength, Ends, Trim, IsSpace;
    if s != "" {
      SplitsStep(s);
      var t := Trim(s);
      var n := FirstLength(t);
      TrimWithin(s);
      RestWithin(t[n..]);
      SplitsOneLine(Rest(t[n..]));
    }
  }

  lemma RestWithin(s: string)
    requires OneLine(s) && Ends(s)
    ensures OneLine(Rest(s))
  {
    hide IsSpace;
    TrimWithin(s);
    if Trim(s) != "" { TrimWithin(Trim(s)[1..]); }
  }

  /** So every accepted list, however it is spaced, can be printed in the standard form without changing
      its meaning. */
  lemma Normalises(compiler: Compiler, text: string)
    requires OneLine(text) && ParseAll(compiler, Splits(TrimEnd(Trim(text)))).Ok?
    ensures var rules := ParseAll(compiler, Splits(TrimEnd(Trim(text)))).value;
            ParseAll(compiler, Splits(TrimEnd(Trim(PrintAll(rules))))) == Ok(rules)
  {
    hide Splits, GoodRule, Print;
    TrimWithin(text);
    TrimEndWithin(Trim(text));
    SplitsOneLine(TrimEnd(Trim(text)));
    ParsedAreGood(compiler, Splits(TrimEnd(Trim(text))));
    RulesRoundTrip(compiler, ParseAll(compiler, Splits(TrimEnd(Trim(text)))).value);
  }
}
