/**
 * The points table of data/points.ts: one record per member, each mapping a
 * point type to a value, and the three queries over it.
 */
module Points {
  import opened Wrappers
  import opened Text

  /** One member's record: point types with their values, in the object's key order. */
  datatype Member = Member(name: string, scores: seq<(string, int)>)

  /** No point type appears twice in a record (object keys are unique). */
  ghost predicate DistinctKeys(scores: seq<(string, int)>) {
    forall i, j :: 0 <= i < j < |scores| ==> scores[i].0 != scores[j].0
  }

  /** No member appears twice, and every record has unique keys. */
  ghost predicate WellFormed(data: seq<Member>) {
    (forall i, j :: 0 <= i < j < |data| ==> data[i].name != data[j].name)
    && (forall i :: 0 <= i < |data| ==> DistinctKeys(data[i].scores))
  }

  /** `points[name]`: the record of the first member with that name. */
  function Lookup(data: seq<Member>, name: string): (r: Option<seq<(string, int)>>)
    ensures r.None? <==> forall i :: 0 <= i < |data| ==> data[i].name != name
    ensures r.Some? ==> exists i :: 0 <= i < |data| && data[i].name == name && r.value == data[i].scores
  {
    if data == [] then None
    else if data[0].name == name then Some(data[0].scores)
    else
      var r := Lookup(data[1..], name);
      assert r.Some? ==> exists i :: 1 <= i < |data| && data[i].name == name && r.value == data[i].scores by {
        if r.Some? {
          var i :| 0 <= i < |data[1..]| && data[1..][i].name == name && r.value == data[1..][i].scores;
          assert data[i + 1] == data[1..][i];
        }
      }
      r
  }

  /** In a well-formed table, the record found for a member's name is that member's. */
  lemma LookupMember(data: seq<Member>, i: nat)
    requires WellFormed(data) && i < |data|
    ensures Lookup(data, data[i].name) == Some(data[i].scores)
  {
  }

  /** The point types of one record, as a set. */
  function KeySet(scores: seq<(string, int)>): (r: set<string>)
    ensures forall t :: t in r <==> exists j :: 0 <= j < |scores| && scores[j].0 == t
  {
    if scores == [] then {}
    else
      var init := scores[..|scores| - 1];
      var r := KeySet(init) + {scores[|scores| - 1].0};
      assert forall j :: 0 <= j < |init| ==> init[j] == scores[j];
      r
  }

  /** `memberPoints[type] || 0`: the value stored under `t`, or 0 when there is none. */
  function Value(scores: seq<(string, int)>, t: string): (v: int)
    ensures t !in KeySet(scores) ==> v == 0
    ensures forall j :: 0 <= j < |scores| && scores[j].0 == t && DistinctKeys(scores) ==> v == scores[j].1
  {
    if scores == [] then 0
    else if scores[0].0 == t then scores[0].1
    else
      var v := Value(scores[1..], t);
      assert forall j :: 1 <= j < |scores| ==> scores[j] == scores[1..][j - 1];
      v
  }

  /** The values of a record added up (the `reduce` from 0). */
  function SumValues(scores: seq<(string, int)>): int {
    if scores == [] then 0
    else SumValues(scores[..|scores| - 1]) + scores[|scores| - 1].1
  }

  /** `getCombinedScore(name)`: 0 for an unknown member, else the sum of the record. */
  function CombinedScore(data: seq<Member>, name: string): (s: int)
    ensures Lookup(data, name).None? ==> s == 0
    ensures Lookup(data, name).Some? ==> s == SumValues(Lookup(data, name).value)
  {
    match Lookup(data, name)
    case None => 0
    case Some(scores) => SumValues(scores)
  }

  /** `getScoreForType(name, type)`: 0 for an unknown member or a type the member lacks. */
  function ScoreForType(data: seq<Member>, name: string, t: string): (s: int)
    ensures Lookup(data, name).None? ==> s == 0
    ensures Lookup(data, name).Some? && t !in KeySet(Lookup(data, name).value) ==> s == 0
    ensures Lookup(data, name).Some? ==> var scores := Lookup(data, name).value;
      forall j :: 0 <= j < |scores| && scores[j].0 == t && DistinctKeys(scores) ==> s == scores[j].1
  {
    match Lookup(data, name)
    case None => 0
    case Some(scores) => Value(scores, t)
  }

  // ---- The combined score is the sum of the per-type scores ----

  /** `Value(scores, t)` summed over the types `ts`. */
  function SumOver(ts: seq<string>, scores: seq<(string, int)>): int {
    if ts == [] then 0 else Value(scores, ts[0]) + SumOver(ts[1..], scores)
  }

  /** Appending a pair with a new key adds its value at that key and nowhere else. */
  lemma {:induction false} ValueAppend(scores: seq<(string, int)>, k: string, v: int, t: string)
    requires k !in KeySet(scores)
    ensures Value(scores + [(k, v)], t) == Value(scores, t) + (if t == k then v else 0)
  {
    if scores == [] {
    } else {
      assert (scores + [(k, v)])[1..] == scores[1..] + [(k, v)];
      if scores[0].0 != t {
        assert KeySet(scores[1..]) <= KeySet(scores) by {
          forall u | u in KeySet(scores[1..]) ensures u in KeySet(scores) {
            var j :| 0 <= j < |scores[1..]| && scores[1..][j].0 == u;
            assert scores[j + 1].0 == u;
          }
        }
        ValueAppend(scores[1..], k, v, t);
      }
    }
  }

  /** Summing over distinct types after appending a new key adds its value once if listed. */
  lemma {:induction false} SumOverAppend(ts: seq<string>, scores: seq<(string, int)>, k: string, v: int)
    requires k !in KeySet(scores)
    requires forall i, j :: 0 <= i < j < |ts| ==> ts[i] != ts[j]
    ensures SumOver(ts, scores + [(k, v)]) == SumOver(ts, scores) + (if k in ts then v else 0)
  {
    if ts != [] {
      ValueAppend(scores, k, v, ts[0]);
      SumOverAppend(ts[1..], scores, k, v);
      assert k in ts <==> k == ts[0] || k in ts[1..];
    }
  }

  /**
   * Summed over any list of distinct types that covers a record's keys, the
   * per-type values give the record's total.
   */
  lemma {:induction false} SumOverCovers(ts: seq<string>, scores: seq<(string, int)>)
    requires DistinctKeys(scores)
    requires forall i, j :: 0 <= i < j < |ts| ==> ts[i] != ts[j]
    requires KeySet(scores) <= set t | t in ts
    ensures SumOver(ts, scores) == SumValues(scores)
  {
    if scores == [] {
      SumOverEmpty(ts);
    } else {
      var init := scores[..|scores| - 1];
      var last := scores[|scores| - 1];
      assert scores == init + [last];
      assert DistinctKeys(init);
      assert last.0 !in KeySet(init);
      assert KeySet(init) <= KeySet(scores);
      SumOverCovers(ts, init);
      SumOverAppend(ts, init, last.0, last.1);
      assert last.0 in KeySet(scores);
    }
  }

  lemma {:induction false} SumOverEmpty(ts: seq<string>)
    ensures SumOver(ts, []) == 0
  {
    if ts != [] {
      SumOverEmpty(ts[1..]);
    }
  }

  /** `getScoreForType(name, t)` summed over the types `ts`. */
  function TypeScoresTotal(data: seq<Member>, name: string, ts: seq<string>): int {
    if ts == [] then 0 else ScoreForType(data, name, ts[0]) + TypeScoresTotal(data, name, ts[1..])
  }

  lemma {:induction false} TypeScoresTotalOver(data: seq<Member>, name: string, ts: seq<string>)
    ensures Lookup(data, name).Some? ==> TypeScoresTotal(data, name, ts) == SumOver(ts, Lookup(data, name).value)
    ensures Lookup(data, name).None? ==> TypeScoresTotal(data, name, ts) == 0
  {
    if ts != [] {
      TypeScoresTotalOver(data, name, ts[1..]);
    }
  }

  /**
   * `getCombinedScore(name)` is the sum of `getScoreForType(name, t)` over the
   * types of `getAllPointTypes()`, the scoreboard's columns.
   */
  lemma CombinedIsSumOfTypeScores(data: seq<Member>, name: string, ts: seq<string>)
    requires WellFormed(data)
    requires forall i, j :: 0 <= i < j < |ts| ==> ts[i] != ts[j]
    requires forall t :: t in ts <==> t in TypesOf(data)
    ensures CombinedScore(data, name) == TypeScoresTotal(data, name, ts)
  {
    TypeScoresTotalOver(data, name, ts);
    match Lookup(data, name)
    case None =>
    case Some(scores) =>
      var i :| 0 <= i < |data| && data[i].name == name && scores == data[i].scores;
      TypesOfMember(data, i);
      SumOverCovers(ts, scores);
  }

  // ---- getAllPointTypes ----

  /** Every point type used by some member. */
  function TypesOf(data: seq<Member>): set<string> {
    if data == [] then {} else TypesOf(data[..|data| - 1]) + KeySet(data[|data| - 1].scores)
  }

  /** A point type in `TypesOf(data)` comes from some member's record. */
  lemma {:induction false} TypesOfHasOwner(data: seq<Member>, t: string) returns (i: nat)
    requires t in TypesOf(data)
    ensures i < |data| && t in KeySet(data[i].scores)
  {
    var n := |data| - 1;
    if t in KeySet(data[n].scores) {
      i := n;
    } else {
      var init := data[..n];
      i := TypesOfHasOwner(init, t);
      assert init[i] == data[i];
    }
  }

  /** Each member's point types are in `TypesOf(data)`. */
  lemma {:induction false} OwnerTypeListed(data: seq<Member>, t: string, i: nat)
    requires i < |data| && t in KeySet(data[i].scores)
    ensures t in TypesOf(data)
  {
    var n := |data| - 1;
    if i < n {
      var init := data[..n];
      assert init[i] == data[i];
      OwnerTypeListed(init, t, i);
    }
  }

  /** A point type is in `TypesOf(data)` exactly when some member's record has it. */
  lemma {:induction false} TypesOfMeans(data: seq<Member>, t: string)
    ensures t in TypesOf(data) <==> exists i :: 0 <= i < |data| && t in KeySet(data[i].scores)
  {
    if t in TypesOf(data) {
      var i := TypesOfHasOwner(data, t);
    }
    if exists i :: 0 <= i < |data| && t in KeySet(data[i].scores) {
      var i :| 0 <= i < |data| && t in KeySet(data[i].scores);
      OwnerTypeListed(data, t, i);
    }
  }

  lemma TypesOfMember(data: seq<Member>, i: nat)
    requires i < |data|
    ensures KeySet(data[i].scores) <= TypesOf(data)
  {
    forall t | t in KeySet(data[i].scores) ensures t in TypesOf(data) {
      TypesOfMeans(data, t);
    }
  }

  /** Strictly ascending in code-point order: sorted and without duplicates. */
  ghost predicate StrictlySorted(s: seq<string>) {
    forall i, j :: 0 <= i < j < |s| ==> LexLess(s[i], s[j])
  }

  lemma {:induction false} StrictlySortedDistinct(s: seq<string>)
    requires StrictlySorted(s)
    ensures forall i, j :: 0 <= i < j < |s| ==> s[i] != s[j]
  {
    forall i, j | 0 <= i < j < |s| ensures s[i] != s[j] {
      LexLessIrreflexive(s[i]);
    }
  }

  lemma ConsBelow(x: string, s: seq<string>)
    requires StrictlySorted(s) && (s == [] || LexLess(x, s[0]))
    ensures StrictlySorted([x] + s)
  {
    forall j | 1 <= j < |[x] + s| ensures LexLess(x, ([x] + s)[j]) {
      if j > 1 {
        LexLessTransitive(x, s[0], s[j - 1]);
      }
    }
  }

  /** Inserts `x` into a strictly ascending list that lacks it. */
  function InsertSorted(x: string, s: seq<string>): (r: seq<string>)
    requires StrictlySorted(s) && x !in s
    ensures StrictlySorted(r) && |r| == |s| + 1
    ensures forall t :: t in r <==> t == x || t in s
    ensures r != [] && (r[0] == x || (s != [] && r[0] == s[0]))
  {
    if s == [] then [x]
    else if LexLess(x, s[0]) then
      ConsBelow(x, s);
      [x] + s
    else
      LexLessTotal(x, s[0]);
      var rest := InsertSorted(x, s[1..]);
      assert rest[0] == x || rest[0] == s[1];
      ConsBelow(s[0], rest);
      [s[0]] + rest
  }

  /**
   * `getAllPointTypes()`: collect every key of every record into a set, then
   * list the set in ascending order.
   */
  method AllPointTypes(data: seq<Member>) returns (types: seq<string>)
    ensures StrictlySorted(types)
    ensures forall t :: t in types <==> t in TypesOf(data)
  {
    var seen: set<string> := {};
    for i := 0 to |data|
      invariant seen == TypesOf(data[..i])
    {
      assert data[..i + 1][..i] == data[..i];
      var scores := data[i].scores;
      for j := 0 to |scores|
        invariant seen == TypesOf(data[..i]) + KeySet(scores[..j])
      {
        assert scores[..j + 1][..j] == scores[..j];
        seen := seen + {scores[j].0};
      }
      assert scores[..|scores|] == scores;
    }
    assert data[..|data|] == data;
    // Array.from(types).sort()
    types := [];
    var rest := seen;
    while rest != {}
      invariant StrictlySorted(types)
      invariant rest <= seen
      invariant forall t :: t in types <==> t in seen && t !in rest
      decreases |rest|
    {
      var t :| t in rest;
      types := InsertSorted(t, types);
      rest := rest - {t};
    }
  }
}
