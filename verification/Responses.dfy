/** The provider's list of responses, updated one at a time or many at once (version 1 of the data
    interfaces). */
module Responses {

  /** A response to one request; an empty id stands for a missing one. */
  datatype Response = Response(id: string, salt: string, fields: map<string, string>)

  /** Every field of the new response, except the id and the salt. */
  function Update(r: Response, news: Response): Response { r.(fields := r.fields + news.fields) }

  /** The stored list after one response: the first entry with its id is updated, or it is appended. */
  function Upsert(stored: seq<Response>, r: Response): seq<Response> {
    if stored == [] then [r]
    else if stored[0].id == r.id then [Update(stored[0], r)] + stored[1..]
    else [stored[0]] + Upsert(stored[1..], r)
  }

  function UpsertAll(stored: seq<Response>, rs: seq<Response>): seq<Response>
    decreases |rs|
  {
    if rs == [] then stored else UpsertAll(Upsert(stored, rs[0]), rs[1..])
  }

  predicate Distinct(rs: seq<Response>) {
    forall i, j | 0 <= i < j < |rs| :: rs[i].id != rs[j].id
  }

  /** The position of the response with this id, or the length. */
  function Position(rs: seq<Response>, id: string): (n: nat)
    ensures n <= |rs|
    ensures n < |rs| ==> rs[n].id == id
    ensures forall i: nat | i < n :: rs[i].id != id
  {
    if rs == [] || rs[0].id == id then 0 else 1 + Position(rs[1..], id)
  }

  function Without(rs: seq<Response>, n: nat): seq<Response>
    requires n < |rs|
  {
    rs[..n] + rs[n + 1..]
  }

  /** The ordered dictionary made of responses: a repeated id keeps its place and takes the last value, and
      a response without an id is dropped. */
  function Dictionary(rs: seq<Response>): seq<Response> {
    if rs == [] then []
    else
      var front, r := Dictionary(rs[..|rs| - 1]), rs[|rs| - 1];
      if r.id == "" then front
      else if Position(front, r.id) < |front| then front[Position(front, r.id) := r]
      else front + [r]
  }

  /** The stored list after a dictionary of responses: each one is used for the first entry it fits, and
      what is left is appended. */
  function Merge(stored: seq<Response>, rs: seq<Response>): seq<Response>
    decreases |stored|
  {
    if stored == [] then rs
    else
      var n := Position(rs, stored[0].id);
      if n < |rs| then [Update(stored[0], rs[n])] + Merge(stored[1..], Without(rs, n))
      else [stored[0]] + Merge(stored[1..], rs)
  }

  // ---- The two setters ----

  method SetResponse(stored: seq<Response>, r: Response) returns (list: seq<Response>)
    ensures list == Upsert(stored, r)
  {
    for i := 0 to |stored|
      invariant Upsert(stored, r) == stored[..i] + Upsert(stored[i..], r)
    {
      if stored[i].id == r.id {
        assert stored[i..][1..] == stored[i + 1..];
        return stored[i := Update(stored[i], r)];
      }
      assert stored[i..][1..] == stored[i + 1..];
    }
    return stored + [r];
  }

  method BuildDictionary(rs: seq<Response>) returns (d: seq<Response>)
    ensures d == Dictionary(rs)
  {
    d := [];
    for i := 0 to |rs|
      invariant d == Dictionary(rs[..i])
    {
      assert rs[..i + 1][..i] == rs[..i];
      if rs[i].id != "" {
        var n := Position(d, rs[i].id);
        if n < |d| { d := d[n := rs[i]]; } else { d := d + [rs[i]]; }
      }
    }
    assert rs[..|rs|] == rs;
  }

  /** A stored response without an id is an error. */
  method SetResponses(stored: seq<Response>, rs: seq<Response>) returns (ok: bool, list: seq<Response>)
    requires |rs| >= 1
    ensures ok <==> forall s | s in stored :: s.id != ""
    ensures ok ==> list == Merge(stored, Dictionary(rs))
  {
    var left := BuildDictionary(rs);
    list := [];
    for i := 0 to |stored|
      invariant forall j: nat | j < i :: stored[j].id != ""
      invariant Merge(stored, Dictionary(rs)) == list + Merge(stored[i..], left)
    {
      if stored[i].id == "" { return false, []; }
      var n := Position(left, stored[i].id);
      assert stored[i..][1..] == stored[i + 1..];
      if n < |left| {
        list := list + [Update(stored[i], left[n])];
        left := Without(left, n);
      } else {
        list := list + [stored[i]];
      }
    }
    return true, list + left;
  }

  // ---- They agree ----

  lemma {:induction false} DictionaryOfDistinct(rs: seq<Response>)
    requires Distinct(rs) && forall r | r in rs :: r.id != ""
    ensures Dictionary(rs) == rs
    decreases |rs|
  {
    if rs != [] {
      var n := |rs| - 1;
      DictionaryOfDistinct(rs[..n]);
      assert Position(rs[..n], rs[n].id) == n;
      assert rs == rs[..n] + [rs[n]];
    }
  }

  /** The response is the last one with its id. */
  ghost predicate LastOf(rs: seq<Response>, r: Response) {
    exists i: nat :: i < |rs| && rs[i] == r && forall j: nat | i < j < |rs| :: rs[j].id != r.id
  }

  lemma LastOfNext(rs: seq<Response>, last: Response, r: Response)
    ensures LastOf(rs + [last], r) <==> r == last || (LastOf(rs, r) && r.id != last.id)
  {
    var all, n := rs + [last], |rs|;
    assert all[n] == last && forall j: nat | j < n :: all[j] == rs[j];
    if i: nat :| i < |all| && all[i] == r && forall j: nat | i < j < |all| :: all[j].id != r.id {
      assert i < n ==> rs[i] == r && all[n].id != r.id;
    }
    if r != last && r.id != last.id {
      if i: nat :| i < n && rs[i] == r && forall j: nat | i < j < n :: rs[j].id != r.id {
        assert all[i] == r && forall j: nat | i < j < |all| :: all[j].id != r.id;
      }
    }
  }

  /** The dictionary holds, of each id, the last response, and none without an id. */
  lemma {:induction false} DictionaryExact(rs: seq<Response>, r: Response)
    ensures Distinct(Dictionary(rs))
    ensures r in Dictionary(rs) <==> r.id != "" && LastOf(rs, r)
    decreases |rs|
  {
    hide Position, LastOf, Distinct;
    if rs == [] {
      NoneLast(r);
    } else {
      var n := |rs| - 1;
      assert rs == rs[..n] + [rs[n]];
      DictionaryExact(rs[..n], r);
      DictionaryLast(Dictionary(rs[..n]), rs[n], r);
      LastOfNext(rs[..n], rs[n], r);
    }
  }

  lemma NoneLast(r: Response)
    ensures !LastOf([], r) && Distinct([])
  {
  }

  lemma DictionaryLast(front: seq<Response>, last: Response, r: Response)
    requires Distinct(front)
    ensures var p := Position(front, last.id);
            var next := if last.id == "" then front else if p < |front| then front[p := last] else front + [last];
            Distinct(next) && (last.id != "" ==> (r in next <==> r == last || (r in front && r.id != last.id)))
  {
    var p := Position(front, last.id);
    if p < |front| {
      assert forall i: nat | i < |front| && i != p :: front[i].id != last.id;
      var next := front[p := last];
      assert next[p] == last && forall i: nat | i < |front| && i != p :: next[i] == front[i];
    }
  }

  /** One response can be taken out of the dictionary and put in first. */
  lemma {:induction false} MergeFirst(stored: seq<Response>, r: Response, rs: seq<Response>)
    requires Distinct([r] + rs)
    ensures Merge(stored, [r] + rs) == Merge(Upsert(stored, r), rs)
    decreases |stored|
  {
    hide Merge, Upsert, Distinct, Without;
    FirstApart(r, rs);
    UpsertStep(stored, r);
    MergeStep(Upsert(stored, r), rs);
    if stored == [] {
      assert Position(rs, r.id) == |rs| && [r][1..] == [];
      MergeEmpty([r] + rs);
      MergeEmpty(rs);
    } else {
      var s, rest := stored[0], stored[1..];
      var n := Position(rs, s.id);
      MergeStep(stored, [r] + rs);
      PositionFirst(r, rs, s.id);
      if s.id == r.id {
        WithoutFirst(r, rs);
        assert Upsert(stored, r)[1..] == rest;
      } else {
        assert Upsert(stored, r)[1..] == Upsert(rest, r);
        if n < |rs| {
          WithoutLater(r, rs, n);
          WithoutDistinct(r, rs, n);
          MergeFirst(rest, r, Without(rs, n));
        } else {
          MergeFirst(rest, r, rs);
        }
      }
    }
  }

  lemma UpsertStep(stored: seq<Response>, r: Response)
    ensures Upsert(stored, r) == if stored == [] then [r]
                                 else if stored[0].id == r.id then [Update(stored[0], r)] + stored[1..]
                                 else [stored[0]] + Upsert(stored[1..], r)
  {
  }

  lemma PositionFirst(r: Response, rs: seq<Response>, id: string)
    ensures Position([r] + rs, id) == if r.id == id then 0 else 1 + Position(rs, id)
  {
    assert ([r] + rs)[1..] == rs;
  }

  lemma WithoutFirst(r: Response, rs: seq<Response>)
    ensures Without([r] + rs, 0) == rs
  {
  }

  lemma WithoutLater(r: Response, rs: seq<Response>, n: nat)
    requires n < |rs|
    ensures Without([r] + rs, n + 1) == [r] + Without(rs, n) && |Without(rs, n)| == |rs| - 1
  {
  }

  lemma FirstApart(r: Response, rs: seq<Response>)
    requires Distinct([r] + rs)
    ensures forall i: nat | i < |rs| :: rs[i].id != r.id
  {
    forall i: nat | i < |rs| ensures rs[i].id != r.id {
      assert ([r] + rs)[0] == r && ([r] + rs)[i + 1] == rs[i];
    }
  }

  lemma WithoutDistinct(r: Response, rs: seq<Response>, n: nat)
    requires n < |rs| && Distinct([r] + rs)
    ensures Distinct([r] + Without(rs, n))
  {
    var all, left := [r] + rs, [r] + Without(rs, n);
    assert forall i: nat | i < |left| :: left[i] == all[if i <= n then i else i + 1];
  }

  /** For requests with distinct ids, setting the responses at once and setting them one after the other
      give the same list, even if the stored list holds an id more than once. */
  lemma {:induction false} AtOnceOrOneByOne(stored: seq<Response>, rs: seq<Response>)
    requires Distinct(rs) && forall r | r in rs :: r.id != ""
    ensures Merge(stored, Dictionary(rs)) == UpsertAll(stored, rs)
    decreases |rs|
  {
    DictionaryOfDistinct(rs);
    if rs == [] {
      MergeNothing(stored);
    } else {
      assert rs == [rs[0]] + rs[1..];
      MergeFirst(stored, rs[0], rs[1..]);
      DictionaryOfDistinct(rs[1..]);
      AtOnceOrOneByOne(Upsert(stored, rs[0]), rs[1..]);
    }
  }

  lemma {:induction false} MergeNothing(stored: seq<Response>)
    ensures Merge(stored, []) == stored
    decreases |stored|
  {
    if stored != [] {
      MergeNothing(stored[1..]);
      assert stored == [stored[0]] + stored[1..];
    }
  }

  // ---- Responses that repeat an id ----

  lemma {:induction false} UpsertPlace(rs: seq<Response>, r: Response)
    ensures Upsert(rs, r)
            == if Position(rs, r.id) < |rs| then rs[Position(rs, r.id) := Update(rs[Position(rs, r.id)], r)]
               else rs + [r]
    decreases |rs|
  {
    if rs != [] && rs[0].id != r.id {
      UpsertPlace(rs[1..], r);
      assert rs == [rs[0]] + rs[1..];
    }
  }

  lemma PositionIs(rs: seq<Response>, id: string, n: nat)
    requires n < |rs| && rs[n].id == id && forall i: nat | i < n :: rs[i].id != id
    ensures Position(rs, id) == n
  {
  }

  lemma UpsertDistinct(rs: seq<Response>, r: Response)
    requires Distinct(rs)
    ensures Distinct(Upsert(rs, r))
  {
    hide Upsert, Position;
    UpsertPlace(rs, r);
  }

  /** An entry that another response has is found in the same place after the update ... */
  lemma UpsertElsewhere(rs: seq<Response>, r: Response, id: string)
    requires id != r.id
    ensures var n, more := Position(rs, id), Upsert(rs, r);
            if n < |rs| then n < |more| && Position(more, id) == n && more[n] == rs[n] else Position(more, id) == |more|
  {
    hide Upsert;
    UpsertPlace(rs, r);
    var n, more := Position(rs, id), Upsert(rs, r);
    if n < |rs| { PositionIs(more, id, n); }
  }

  /** ... and can be taken out before it. */
  lemma UpsertWithout(rs: seq<Response>, r: Response, n: nat)
    requires n < |rs| && rs[n].id != r.id
    ensures n < |Upsert(rs, r)| && Without(Upsert(rs, r), n) == Upsert(Without(rs, n), r)
  {
    hide Upsert, Position, Update;
    UpsertPlace(rs, r);
    UpsertPlace(Without(rs, n), r);
    WithoutPlace(rs, n, r.id);
    var p := Position(rs, r.id);
    if p < |rs| { WithoutSet(rs, n, p, Update(rs[p], r)); } else { WithoutMore(rs, n, r); }
  }

  lemma WithoutSet(rs: seq<Response>, n: nat, p: nat, x: Response)
    requires n < |rs| && p < |rs| && p != n
    ensures var q := if p < n then p else p - 1;
            q < |Without(rs, n)| && Without(rs, n)[q] == rs[p] && Without(rs[p := x], n) == Without(rs, n)[q := x]
  {
  }

  lemma WithoutMore(rs: seq<Response>, n: nat, x: Response)
    requires n < |rs|
    ensures Without(rs + [x], n) == Without(rs, n) + [x] && |Without(rs, n)| == |rs| - 1
  {
  }

  lemma WithoutPlace(rs: seq<Response>, n: nat, id: string)
    requires n < |rs| && rs[n].id != id
    ensures var p := Position(rs, id);
            Position(Without(rs, n), id) == if p < n then p else p - 1
  {
    var p, left := Position(rs, id), Without(rs, n);
    assert forall i: nat | i < |left| :: left[i] == rs[if i < n then i else i + 1];
    if p < |rs| { PositionIs(left, id, if p < n then p else p - 1); }
  }

  /** A response after a merge is as good as one added to what is merged. */
  lemma {:induction false} UpsertMerge(stored: seq<Response>, rs: seq<Response>, r: Response)
    requires Distinct(rs)
    ensures Upsert(Merge(stored, rs), r) == Merge(stored, Upsert(rs, r))
    decreases |stored|
  {
    hide Merge, Upsert, Position, Distinct, Without;
    if stored == [] {
      MergeEmpty(rs);
      MergeEmpty(Upsert(rs, r));
    } else {
      var s, rest, n := stored[0], stored[1..], Position(rs, stored[0].id);
      if s.id == r.id {
        UpsertHead(stored, rs, r);
      } else {
        var left := if n < |rs| then Without(rs, n) else rs;
        MergeStep(stored, rs);
        MergeStep(stored, Upsert(rs, r));
        UpsertElsewhere(rs, r, s.id);
        if n < |rs| {
          UpsertWithout(rs, r, n);
          PositionWithout(rs, n, "");
        }
        UpsertMerge(rest, left, r);
        UpsertTail(if n < |rs| then Update(s, rs[n]) else s, Merge(rest, left), r);
      }
    }
  }

  lemma UpsertTail(s: Response, rest: seq<Response>, r: Response)
    requires s.id != r.id
    ensures Upsert([s] + rest, r) == [s] + Upsert(rest, r)
  {
    assert ([s] + rest)[1..] == rest;
  }

  /** The first stored entry takes both. */
  lemma UpsertHead(stored: seq<Response>, rs: seq<Response>, r: Response)
    requires stored != [] && stored[0].id == r.id && Distinct(rs)
    ensures Upsert(Merge(stored, rs), r) == Merge(stored, Upsert(rs, r))
  {
    hide Merge, Upsert, Position, Distinct, Without;
    var s, rest, n := stored[0], stored[1..], Position(rs, r.id);
    MergeStep(stored, rs);
    MergeStep(stored, Upsert(rs, r));
    UpsertSame(rs, r);
    UpsertStep(Merge(stored, rs), r);
    if n < |rs| {
      assert Update(Update(s, rs[n]), r) == Update(s, Update(rs[n], r));
      assert Merge(stored, rs)[1..] == Merge(rest, Without(rs, n));
    } else {
      assert Merge(stored, rs)[1..] == Merge(rest, rs);
    }
  }

  lemma UpsertSame(rs: seq<Response>, r: Response)
    requires Distinct(rs)
    ensures var n, more := Position(rs, r.id), Upsert(rs, r);
            && n < |more| && Position(more, r.id) == n
            && (if n < |rs| then more[n] == Update(rs[n], r) && Without(more, n) == Without(rs, n)
                else more[n] == r && Without(more, n) == rs)
  {
    hide Upsert;
    UpsertPlace(rs, r);
    var n, more := Position(rs, r.id), Upsert(rs, r);
    PositionIs(more, r.id, n);
    hide Position;
    assert Without(more, n) == if n < |rs| then Without(rs, n) else rs;
  }

  lemma {:induction false} UpsertAllLast(stored: seq<Response>, rs: seq<Response>, r: Response)
    ensures UpsertAll(stored, rs + [r]) == Upsert(UpsertAll(stored, rs), r)
    decreases |rs|
  {
    hide Upsert;
    var all := rs + [r];
    if rs == [] {
      assert all[1..] == [];
    } else {
      assert all[0] == rs[0] && all[1..] == rs[1..] + [r];
      UpsertAllLast(Upsert(stored, rs[0]), rs[1..], r);
    }
  }

  /** The responses one by one, whatever ids they repeat: each id's responses added up, and then merged. */
  lemma {:induction false} OneByOne(stored: seq<Response>, rs: seq<Response>)
    ensures Distinct(UpsertAll([], rs))
    ensures UpsertAll(stored, rs) == Merge(stored, UpsertAll([], rs))
    decreases |rs|
  {
    hide Merge, Upsert, UpsertAll;
    if rs == [] {
      UpsertNone(stored);
      UpsertNone([]);
      MergeNothing(stored);
    } else {
      var n := |rs| - 1;
      assert rs == rs[..n] + [rs[n]];
      OneByOne(stored, rs[..n]);
      UpsertAllLast(stored, rs[..n], rs[n]);
      UpsertAllLast([], rs[..n], rs[n]);
      UpsertDistinct(UpsertAll([], rs[..n]), rs[n]);
      UpsertMerge(stored, UpsertAll([], rs[..n]), rs[n]);
    }
  }

  lemma UpsertNone(stored: seq<Response>)
    ensures UpsertAll(stored, []) == stored
  {
  }

  predicate SameIds(a: seq<Response>, b: seq<Response>) {
    |a| == |b| && forall i: nat | i < |a| :: a[i].id == b[i].id
  }

  /** The dictionary has the same ids in the same places. */
  lemma {:induction false} DictionaryIds(rs: seq<Response>)
    requires forall r | r in rs :: r.id != ""
    ensures SameIds(Dictionary(rs), UpsertAll([], rs)) && Distinct(Dictionary(rs))
    decreases |rs|
  {
    hide Upsert, UpsertAll, Position;
    if rs == [] {
      UpsertNone([]);
    } else {
      var n := |rs| - 1;
      var d, all := Dictionary(rs[..n]), UpsertAll([], rs[..n]);
      assert rs == rs[..n] + [rs[n]] && rs[n] in rs;
      DictionaryIds(rs[..n]);
      UpsertAllLast([], rs[..n], rs[n]);
      DictionaryNext(d, all, rs[n]);
    }
  }

  lemma DictionaryNext(d: seq<Response>, all: seq<Response>, r: Response)
    requires SameIds(d, all) && Distinct(d)
    ensures var p := Position(d, r.id);
            var next := if p < |d| then d[p := r] else d + [r];
            SameIds(next, Upsert(all, r)) && Distinct(next)
  {
    hide Upsert, Position, Update;
    UpsertPlace(all, r);
    SamePlace(d, all, r.id);
    UpdateKeeps(all, r);
  }

  lemma UpdateKeeps(all: seq<Response>, r: Response)
    ensures forall s: Response | s in all :: Update(s, r).id == s.id
  {
  }

  lemma SamePlace(a: seq<Response>, b: seq<Response>, id: string)
    requires SameIds(a, b)
    ensures Position(a, id) == Position(b, id)
  {
  }

  /** The two responses have the same effect: on the stored entry with their id, or as new entries. */
  predicate SameEffect(stored: seq<Response>, a: Response, b: Response) {
    var n := Position(stored, a.id);
    if n < |stored| then Update(stored[n], a) == Update(stored[n], b) else a == b
  }

  /** Two lists of responses with the same ids merge to the same list exactly when they have the same effects. */
  lemma {:induction false} SameMerge(stored: seq<Response>, a: seq<Response>, b: seq<Response>)
    requires SameIds(a, b) && Distinct(a) && Distinct(b)
    ensures Merge(stored, a) == Merge(stored, b) <==> forall i: nat | i < |a| :: SameEffect(stored, a[i], b[i])
    decreases |stored|
  {
    hide Merge, Update, Position, SameEffect, Distinct, SameIds, Without;
    if stored == [] {
      MergeEmpty(a);
      MergeEmpty(b);
      NewEffects(a, b);
    } else {
      var s, rest, n := stored[0], stored[1..], Position(a, stored[0].id);
      SamePlace(a, b, s.id);
      SameLength(a, b);
      var x, y := if n < |a| then Without(a, n) else a, if n < |a| then Without(b, n) else b;
      MergeStep(stored, a);
      MergeStep(stored, b);
      if n < |a| {
        PositionWithout(a, n, "");
        PositionWithout(b, n, "");
      }
      EffectsLeft(rest, a, b, n);
      SameMerge(rest, x, y);
      EffectsSplit(stored, a, b, n);
      HeadTail(Merge(stored, a), Merge(stored, b), if n < |a| then Update(s, a[n]) else s,
               if n < |a| then Update(s, b[n]) else s, Merge(rest, x), Merge(rest, y));
    }
  }

  lemma SameLength(a: seq<Response>, b: seq<Response>)
    requires SameIds(a, b)
    ensures |a| == |b|
  {
  }

  lemma NewEffects(a: seq<Response>, b: seq<Response>)
    requires SameIds(a, b)
    ensures a == b <==> forall i: nat | i < |a| :: SameEffect([], a[i], b[i])
  {
    if forall i: nat | i < |a| :: SameEffect([], a[i], b[i]) {
      forall i: nat | i < |a| ensures a[i] == b[i] { assert SameEffect([], a[i], b[i]); }
    }
  }

  /** The effect on the first stored entry, and the effects on the others. */
  lemma EffectsSplit(stored: seq<Response>, a: seq<Response>, b: seq<Response>, n: nat)
    requires stored != [] && SameIds(a, b) && Distinct(a) && n == Position(a, stored[0].id)
    ensures |a| == |b|
    ensures (forall i: nat | i < |a| :: SameEffect(stored, a[i], b[i])) <==>
              && (n < |a| ==> Update(stored[0], a[n]) == Update(stored[0], b[n]))
              && forall i: nat | i < |a| && i != n :: SameEffect(stored[1..], a[i], b[i])
  {
    hide Update, SameEffect;
    forall i: nat | i < |a|
      ensures SameEffect(stored, a[i], b[i]) == if i == n then Update(stored[0], a[i]) == Update(stored[0], b[i])
                                                else SameEffect(stored[1..], a[i], b[i])
    {
      EffectStep(stored, a[i], b[i]);
      if a[i].id == stored[0].id { PositionAt(a, i); }
    }
    if n < |a| { assert SameEffect(stored, a[n], b[n]) == (Update(stored[0], a[n]) == Update(stored[0], b[n])); }
  }

  lemma HeadTail(x: seq<Response>, y: seq<Response>, p: Response, q: Response, s: seq<Response>, t: seq<Response>)
    requires x == [p] + s && y == [q] + t
    ensures x == y <==> p == q && s == t
  {
    assert x[0] == p && y[0] == q && x[1..] == s && y[1..] == t;
  }

  lemma EffectStep(stored: seq<Response>, a: Response, b: Response)
    requires stored != [] && a.id == b.id
    ensures SameEffect(stored, a, b) == if a.id == stored[0].id then Update(stored[0], a) == Update(stored[0], b)
                                        else SameEffect(stored[1..], a, b)
  {
    hide Update;
  }

  lemma PositionAt(rs: seq<Response>, i: nat)
    requires Distinct(rs) && i < |rs|
    ensures Position(rs, rs[i].id) == i
  {
    PositionIs(rs, rs[i].id, i);
  }

  lemma EffectsLeft(rest: seq<Response>, a: seq<Response>, b: seq<Response>, n: nat)
    requires SameIds(a, b)
    ensures n < |a| ==>
              && |Without(a, n)| == |Without(b, n)| == |a| - 1 && SameIds(Without(a, n), Without(b, n))
              && ((forall i: nat | i < |a| - 1 :: SameEffect(rest, Without(a, n)[i], Without(b, n)[i]))
                  <==> forall i: nat | i < |a| && i != n :: SameEffect(rest, a[i], b[i]))
  {
    hide SameEffect;
    if n < |a| {
      var x, y := Without(a, n), Without(b, n);
      forall i: nat | i < |x| ensures x[i] == a[if i < n then i else i + 1] && y[i] == b[if i < n then i else i + 1] { }
      if forall i: nat | i < |a| - 1 :: SameEffect(rest, x[i], y[i]) {
        forall i: nat | i < |a| && i != n ensures SameEffect(rest, a[i], b[i]) {
          assert SameEffect(rest, x[if i < n then i else i - 1], y[if i < n then i else i - 1]);
        }
      }
    }
  }

  /** Whatever is stored and whatever ids repeat: setting the responses at once and one by one give the same
      list exactly when, for each id, the last response has the effect that all of them have added up. */
  lemma AgreesExactly(stored: seq<Response>, rs: seq<Response>)
    requires forall r | r in rs :: r.id != ""
    ensures SameIds(Dictionary(rs), UpsertAll([], rs))
    ensures Merge(stored, Dictionary(rs)) == UpsertAll(stored, rs)
            <==> forall i: nat | i < |Dictionary(rs)| :: SameEffect(stored, Dictionary(rs)[i], UpsertAll([], rs)[i])
  {
    hide Merge, UpsertAll, Dictionary, SameEffect, Distinct;
    DictionaryIds(rs);
    OneByOne(stored, rs);
    SameMerge(stored, Dictionary(rs), UpsertAll([], rs));
  }

  /** Two responses to the same new request: one by one they add up, at once the last one counts.  The
      lists agree exactly when the last one repeats all fields of the first, and its salt. */
  lemma RepeatedId(a: Response, b: Response)
    requires a.id == b.id != ""
    ensures Merge([], Dictionary([a, b])) == UpsertAll([], [a, b]) <==>
            a.salt == b.salt && a.fields.Keys <= b.fields.Keys
  {
    assert [a, b][..1] == [a] && [a][..0] == [];
    assert Dictionary([a]) == [a] && Dictionary([a, b]) == [b];
    assert [a, b][1..] == [b] && [b][1..] == [] && [a][1..] == [];
    assert UpsertAll([], [a, b]) == UpsertAll([a], [b]) == UpsertAll(Upsert([a], b), []);
    assert Upsert([a], b) == [Update(a, b)];
    assert a.fields + b.fields == b.fields <==> a.fields.Keys <= b.fields.Keys by {
      if a.fields + b.fields == b.fields { assert (a.fields + b.fields).Keys == b.fields.Keys; }
    }
  }

  /** What stays in place: the stored entries keep their order, ids and salts, and those that no response
      mentions keep their fields too. */
  lemma {:induction false} MergeKeeps(stored: seq<Response>, rs: seq<Response>, i: nat)
    requires i < |stored|
    ensures |Merge(stored, rs)| >= |stored|
    ensures Merge(stored, rs)[i].id == stored[i].id && Merge(stored, rs)[i].salt == stored[i].salt
    ensures Position(rs, stored[i].id) == |rs| ==> Merge(stored, rs)[i] == stored[i]
    decreases |stored|
  {
    hide Position, Merge;
    MergeStep(stored, rs);
    var n := Position(rs, stored[0].id);
    var rest := if n < |rs| then Without(rs, n) else rs;
    if |stored| > 1 {
      MergeKeeps(stored[1..], rest, if i > 0 then i - 1 else 0);
      if n < |rs| { PositionWithout(rs, n, stored[i].id); }
    }
  }

  lemma MergeStep(stored: seq<Response>, rs: seq<Response>)
    requires stored != []
    ensures var n := Position(rs, stored[0].id);
            Merge(stored, rs) == if n < |rs| then [Update(stored[0], rs[n])] + Merge(stored[1..], Without(rs, n))
                                 else [stored[0]] + Merge(stored[1..], rs)
    ensures Merge([], rs) == rs
  {
  }

  /** A response with an id of its own is used for the first entry with that id. */
  lemma {:induction false} MergeUpdates(stored: seq<Response>, rs: seq<Response>, i: nat, p: nat)
    requires Distinct(rs) && i < |stored| && p < |rs| && rs[p].id == stored[i].id
    requires Position(stored, stored[i].id) == i
    ensures |Merge(stored, rs)| >= |stored| && Merge(stored, rs)[i] == Update(stored[i], rs[p])
    decreases |stored|
  {
    MergeKeeps(stored, rs, i);
    MergeStep(stored, rs);
    hide Without, Merge;
    var n := Position(rs, stored[0].id);
    if i == 0 {
      assert n == p;
    } else if n < |rs| {
      PositionWithout(rs, n, stored[i].id);
      var q := Position(Without(rs, n), stored[i].id);
      assert rs[Position(rs, stored[i].id)] == rs[p];
      MergeUpdates(stored[1..], Without(rs, n), i - 1, q);
    } else {
      MergeUpdates(stored[1..], rs, i - 1, p);
    }
  }

  /** New ids are appended, each once, in the order of the responses. */
  lemma {:induction false} MergeAppends(stored: seq<Response>, rs: seq<Response>)
    requires Distinct(rs)
    ensures |Merge(stored, rs)| >= |stored|
    ensures Merge(stored, rs)[|stored|..] == Unmentioned(stored, rs)
    decreases |stored|
  {
    hide Position, Merge;
    if stored == [] {
      NothingMentioned(rs);
      MergeEmpty(rs);
    } else {
      MergeStep(stored, rs);
      var n := Position(rs, stored[0].id);
      if n < |rs| {
        PositionWithout(rs, n, "");
        MergeAppends(stored[1..], Without(rs, n));
        UnmentionedNext(stored, rs, n);
      } else {
        MergeAppends(stored[1..], rs);
        UnmentionedSame(stored, rs);
      }
    }
  }

  lemma MergeEmpty(rs: seq<Response>)
    ensures Merge([], rs) == rs
  {
  }

  /** The responses whose ids the stored list does not know. */
  function Unmentioned(stored: seq<Response>, rs: seq<Response>): seq<Response> {
    if rs == [] then []
    else (if Position(stored, rs[0].id) == |stored| then [rs[0]] else []) + Unmentioned(stored, rs[1..])
  }

  lemma {:induction false} NothingMentioned(rs: seq<Response>)
    ensures Unmentioned([], rs) == rs
  {
    if rs != [] {
      NothingMentioned(rs[1..]);
      assert rs == [rs[0]] + rs[1..];
    }
  }

  lemma {:induction false} UnmentionedSame(stored: seq<Response>, rs: seq<Response>)
    requires stored != [] && forall r | r in rs :: r.id != stored[0].id
    ensures Unmentioned(stored, rs) == Unmentioned(stored[1..], rs)
    decreases |rs|
  {
    if rs != [] { UnmentionedSame(stored, rs[1..]); }
  }

  lemma {:induction false} UnmentionedNext(stored: seq<Response>, rs: seq<Response>, n: nat)
    requires stored != [] && n < |rs| && rs[n].id == stored[0].id && Distinct(rs)
    ensures Unmentioned(stored, rs) == Unmentioned(stored[1..], Without(rs, n))
    decreases |rs|
  {
    if n == 0 {
      assert Without(rs, 0) == rs[1..];
      forall r | r in rs[1..] ensures r.id != stored[0].id {
        var i: nat :| i < |rs| - 1 && rs[1..][i] == r;
        assert rs[0].id != rs[i + 1].id;
      }
      UnmentionedSame(stored, rs[1..]);
    } else {
      assert Without(rs, n)[0] == rs[0] && Without(rs, n)[1..] == Without(rs[1..], n - 1);
      assert rs[0].id != rs[n].id;
      UnmentionedNext(stored, rs[1..], n - 1);
    }
  }

  lemma PositionWithout(rs: seq<Response>, n: nat, id: string)
    requires n < |rs|
    ensures Position(rs, id) == |rs| ==> Position(Without(rs, n), id) == |rs| - 1
    ensures Distinct(rs) && rs[n].id != id && Position(rs, id) < |rs| ==>
              Position(Without(rs, n), id) < |rs| - 1 &&
                Without(rs, n)[Position(Without(rs, n), id)] == rs[Position(rs, id)]
    ensures Distinct(rs) ==> Distinct(Without(rs, n))
  {
    var left := Without(rs, n);
    assert forall i: nat | i < |left| :: left[i] == rs[if i < n then i else i + 1];
    var p := Position(rs, id);
    if Distinct(rs) && rs[n].id != id && p < |rs| {
      var q := if p < n then p else p - 1;
      assert left[q] == rs[p];
      assert Position(left, id) == q;
    }
  }
}
