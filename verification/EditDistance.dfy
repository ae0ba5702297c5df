/**
 The text judge of the observation-quality benchmark: whitespace/case normalization and
 the two-row Levenshtein loop, proved against edit scripts.
 */
module EditDistance {

  // ---- edit scripts: what the distance means ----

  /** One column of an alignment: what happens to a source character, a target character, or both. */
  datatype Edit = Replace(from: char, to: char) | Delete(from: char) | Insert(to: char)

  function Source(script: seq<Edit>): string {
    if script == [] then [] else
      var e := script[|script| - 1];
      Source(script[..|script| - 1]) + (if e.Insert? then [] else [e.from])
  }

  function Target(script: seq<Edit>): string {
    if script == [] then [] else
      var e := script[|script| - 1];
      Target(script[..|script| - 1]) + (if e.Delete? then [] else [e.to])
  }

  /** Replacing a character by itself is free; every other edit costs one. */
  function EditCost(e: Edit): nat {
    if e.Replace? && e.from == e.to then 0 else 1
  }

  function Cost(script: seq<Edit>): nat {
    if script == [] then 0 else Cost(script[..|script| - 1]) + EditCost(script[|script| - 1])
  }

  // ---- the recurrence ----

  function Min(x: int, y: int): int { if x <= y then x else y }

  function Max(x: int, y: int): int { if x <= y then y else x }

  function Differ(x: char, y: char): nat { if x == y then 0 else 1 }

  function Init(s: string): string
    requires s != []
  {
    s[..|s| - 1]
  }

  function Last(s: string): char
    requires s != []
  {
    s[|s| - 1]
  }

  function Distance(a: string, b: string): nat
    decreases |a| + |b|
  {
    if a == [] then |b|
    else if b == [] then |a|
    else Min(Min(Distance(Init(a), b) + 1, Distance(a, Init(b)) + 1),
             Distance(Init(a), Init(b)) + Differ(Last(a), Last(b)))
  }

  lemma {:induction false} DistanceStep(a: string, b: string)
    ensures b != [] ==> Distance(a, b) <= Distance(a, Init(b)) + 1
    ensures a != [] ==> Distance(a, b) <= Distance(Init(a), b) + 1
    ensures a != [] && b != [] ==>
              Distance(a, b) <= Distance(Init(a), Init(b)) + Differ(Last(a), Last(b))
  {
    if a == [] && b != [] {
      assert Distance(a, Init(b)) == |Init(b)|;
    } else if b == [] && a != [] {
      assert Distance(Init(a), b) == |Init(a)|;
    }
  }

  /** What one more edit adds to a script. */
  lemma AppendEdit(front: seq<Edit>, e: Edit)
    ensures Source(front + [e]) == Source(front) + (if e.Insert? then [] else [e.from])
    ensures Target(front + [e]) == Target(front) + (if e.Delete? then [] else [e.to])
    ensures Cost(front + [e]) == Cost(front) + EditCost(e)
  {
    assert (front + [e])[..|front|] == front;
  }

  /** No script that turns `a` into `b` is cheaper than the distance. */
  lemma {:induction false} DistanceIsLowerBound(script: seq<Edit>)
    ensures Distance(Source(script), Target(script)) <= Cost(script)
    decreases |script|
  {
    if script != [] {
      var front, e := script[..|script| - 1], script[|script| - 1];
      DistanceIsLowerBound(front);
      assert script == front + [e];
      AppendEdit(front, e);
      ExtendDistance(Source(front), Target(front), e);
    }
  }

  lemma ExtendDistance(a: string, b: string, e: Edit)
    ensures Distance(a + (if e.Insert? then [] else [e.from]), b + (if e.Delete? then [] else [e.to]))
         <= Distance(a, b) + EditCost(e)
  {
    var a', b' := a + (if e.Insert? then [] else [e.from]), b + (if e.Delete? then [] else [e.to]);
    assert a + [] == a && b + [] == b;
    DistanceStep(a', b');
    if !e.Insert? { assert Init(a') == a; }
    if !e.Delete? { assert Init(b') == b; }
  }

  /** The last edit of a cheapest script. */
  function LastEdit(a: string, b: string): (e: Edit)
    requires a != [] || b != []
    ensures !e.Insert? ==> a != [] && e.from == Last(a)
    ensures !e.Delete? ==> b != [] && e.to == Last(b)
    ensures Distance(a, b) ==
            Distance(if e.Insert? then a else Init(a), if e.Delete? then b else Init(b)) + EditCost(e)
  {
    if b == [] || (a != [] && Distance(a, b) == Distance(Init(a), b) + 1) then Delete(Last(a))
    else if a == [] || Distance(a, b) == Distance(a, Init(b)) + 1 then Insert(Last(b))
    else Replace(Last(a), Last(b))
  }

  lemma AppendEditTo(front: seq<Edit>, e: Edit, a: string, b: string)
    requires if e.Insert? then Source(front) == a else a != [] && e.from == Last(a) && Source(front) == Init(a)
    requires if e.Delete? then Target(front) == b else b != [] && e.to == Last(b) && Target(front) == Init(b)
    ensures Source(front + [e]) == a && Target(front + [e]) == b
    ensures Cost(front + [e]) == Cost(front) + EditCost(e)
  {
    hide Source, Target, Cost;
    AppendEdit(front, e);
    if !e.Insert? { InitAndLast(a); } else { WithNothing(a); }
    if !e.Delete? { InitAndLast(b); } else { WithNothing(b); }
  }

  lemma InitAndLast(s: string)
    requires s != []
    ensures Init(s) + [Last(s)] == s
  {
  }

  lemma WithNothing(s: string)
    ensures s + [] == s
  {
  }

  /** A cheapest script, read back from the recurrence. */
  lemma {:induction false} BestScript(a: string, b: string) returns (script: seq<Edit>)
    ensures Source(script) == a && Target(script) == b
    ensures Cost(script) == Distance(a, b)
    decreases |a| + |b|
  {
    if a == [] && b == [] {
      script := [];
    } else {
      var e := LastEdit(a, b);
      var front := BestScript(if e.Insert? then a else Init(a), if e.Delete? then b else Init(b));
      AppendEditTo(front, e, a, b);
      script := front + [e];
    }
  }

  /** The distance is the least cost over all scripts from `a` to `b`. */
  lemma {:induction false} DistanceIsMinimalCost(a: string, b: string)
    ensures exists s :: Source(s) == a && Target(s) == b && Cost(s) == Distance(a, b)
    ensures forall s :: Source(s) == a && Target(s) == b ==> Distance(a, b) <= Cost(s)
  {
    var best := BestScript(a, b);
    forall s | Source(s) == a && Target(s) == b ensures Distance(a, b) <= Cost(s) {
      DistanceIsLowerBound(s);
    }
  }

  // ---- the distance is a metric ----

  lemma {:induction false} DistanceSymmetric(a: string, b: string)
    ensures Distance(a, b) == Distance(b, a)
    decreases |a| + |b|
  {
    if a != [] && b != [] {
      DistanceSymmetric(Init(a), b);
      DistanceSymmetric(a, Init(b));
      DistanceSymmetric(Init(a), Init(b));
    }
  }

  lemma {:induction false} DistanceZeroIff(a: string, b: string)
    ensures Distance(a, b) == 0 <==> a == b
    decreases |a| + |b|
  {
    if a != [] && b != [] {
      DistanceZeroIff(Init(a), Init(b));
      assert a == Init(a) + [Last(a)] && b == Init(b) + [Last(b)];
    }
  }

  lemma {:induction false} DistanceTriangle(a: string, b: string, c: string)
    ensures Distance(a, c) <= Distance(a, b) + Distance(b, c)
    decreases |a| + |b| + |c|
  {
    DistanceBounds(a, c);
    if a == [] || c == [] {
      DistanceBounds(a, b); DistanceBounds(b, c);
    } else if b != [] {
      DistanceCases(a, b);
      DistanceCases(b, c);
      hide Distance;
      DistanceStep(a, c);
      DistanceTriangle(Init(a), b, c);
      DistanceTriangle(a, b, Init(c));
      DistanceTriangle(a, Init(b), c);
      DistanceTriangle(a, Init(b), Init(c));
      DistanceTriangle(Init(a), Init(b), c);
      DistanceTriangle(Init(a), Init(b), Init(c));
    }
  }

  /** The recurrence takes one of its three values. */
  lemma DistanceCases(a: string, b: string)
    requires a != [] && b != []
    ensures || Distance(a, b) == Distance(Init(a), b) + 1
            || Distance(a, b) == Distance(a, Init(b)) + 1
            || Distance(a, b) == Distance(Init(a), Init(b)) + Differ(Last(a), Last(b))
  {
  }

  lemma {:induction false} DistanceBounds(a: string, b: string)
    ensures |a| - |b| <= Distance(a, b) && |b| - |a| <= Distance(a, b)
    ensures Distance(a, b) <= Max(|a|, |b|)
    decreases |a| + |b|
  {
    if a != [] && b != [] {
      DistanceBounds(Init(a), b);
      DistanceBounds(a, Init(b));
      DistanceBounds(Init(a), Init(b));
    }
  }

  // ---- normalization: lower-case, split on whitespace, join with one space ----

  /** The text facilities the host language supplies. */
  datatype Text = Text(lower: string -> string, space: char -> bool)

  function WordLength(t: Text, s: string): (n: nat)
    ensures n <= |s|
    ensures forall i :: 0 <= i < n ==> !t.space(s[i])
    ensures n < |s| ==> t.space(s[n])
  {
    if s == [] || t.space(s[0]) then 0 else 1 + WordLength(t, s[1..])
  }

  function Words(t: Text, s: string): (words: seq<string>)
    ensures AreWords(t, words)
    decreases |s|
  {
    if s == [] then []
    else if t.space(s[0]) then Words(t, s[1..])
    else
      var n := WordLength(t, s);
      [s[..n]] + Words(t, s[n..])
  }

  predicate AreWords(t: Text, words: seq<string>) {
    forall w :: w in words ==> w != [] && forall c :: c in w ==> !t.space(c)
  }

  function Join(words: seq<string>): string {
    if words == [] then []
    else if |words| == 1 then words[0]
    else words[0] + [' '] + Join(words[1..])
  }

  function Norm(t: Text, s: string): string {
    Join(Words(t, t.lower(s)))
  }

  lemma {:induction false} WordLengthOfWord(t: Text, w: string, rest: string)
    requires forall c :: c in w ==> !t.space(c)
    requires rest == [] || t.space(rest[0])
    ensures WordLength(t, w + rest) == |w|
  {
    if w == [] {
      assert w + rest == rest;
    } else {
      assert (w + rest)[1..] == w[1..] + rest;
      WordLengthOfWord(t, w[1..], rest);
    }
  }

  /** Splitting undoes joining. */
  lemma {:induction false} WordsOfJoin(t: Text, words: seq<string>)
    requires t.space(' ') && AreWords(t, words)
    ensures Words(t, Join(words)) == words
    decreases |words|
  {
    if words != [] {
      var w, rest := words[0], words[1..];
      assert w in words && w[0] in w;
      var tail := if rest == [] then [] else [' '] + Join(rest);
      assert Join(words) == w + tail;
      WordLengthOfWord(t, w, tail);
      assert (w + tail)[..|w|] == w && (w + tail)[|w|..] == tail;
      assert forall v :: v in rest ==> v in words;
      WordsOfJoin(t, rest);
      if rest != [] {
        assert tail[1..] == Join(rest);
      }
    }
  }

  lemma {:induction false} WordLengthStops(t: Text, u: string, sp: char, v: string)
    requires t.space(sp)
    ensures WordLength(t, u + [sp] + v) == WordLength(t, u)
  {
    if u != [] {
      assert (u + [sp] + v)[1..] == u[1..] + [sp] + v;
      WordLengthStops(t, u[1..], sp, v);
    }
  }

  /** The words of a text are those before and those after any space. */
  lemma {:induction false} WordsSplit(t: Text, u: string, sp: char, v: string)
    requires t.space(sp)
    ensures Words(t, u + [sp] + v) == Words(t, u) + Words(t, v)
    decreases |u|
  {
    var s := u + [sp] + v;
    if u == [] {
      assert s[1..] == v;
    } else if t.space(u[0]) {
      WordsSplit(t, u[1..], sp, v);
      assert s[1..] == u[1..] + [sp] + v;
    } else {
      var n := WordLength(t, u);
      WordLengthStops(t, u, sp, v);
      WordsSplit(t, u[n..], sp, v);
      assert s[n..] == u[n..] + [sp] + v && s[..n] == u[..n];
    }
  }

  /** A text without spaces is one word, or none. */
  lemma OneWord(t: Text, w: string)
    requires forall c :: c in w ==> !t.space(c)
    ensures Words(t, w) == if w == [] then [] else [w]
  {
    if w != [] {
      WordLengthOfWord(t, w, []);
      assert w + [] == w && w[..|w|] == w && w[|w|..] == [];
    }
  }

  // ---- the benchmark's score ----

  function Ratio(a: string, b: string): real {
    if a == [] && b == [] then 0.0 else Distance(a, b) as real / Max(|a|, |b|) as real
  }

  /** The first `n` cells of the dynamic program's row for `a`: the distances to the prefixes of `b`. */
  ghost predicate IsRow(a: string, b: string, n: nat, row: seq<int>)
  {
    |row| == n <= |b| + 1 && forall j :: 0 <= j < n ==> row[j] == Distance(a, b[..j])
  }

  lemma NextCell(a: string, b: string, i: nat, j: nat, prev: seq<int>, cur: seq<int>)
    requires 1 <= i <= |a| && 1 <= j <= |b|
    requires IsRow(a[..i - 1], b, |b| + 1, prev) && IsRow(a[..i], b, j, cur)
    ensures IsRow(a[..i], b, j + 1,
              cur + [Min(Min(prev[j] + 1, cur[j - 1] + 1), prev[j - 1] + Differ(a[i - 1], b[j - 1]))])
  {
    assert Init(a[..i]) == a[..i - 1] && Init(b[..j]) == b[..j - 1];
  }

  /** `_ned`: the two rows `prev` and `cur` of the dynamic program. */
  method Ned(t: Text, first: string, second: string) returns (ratio: real)
    ensures ratio == Ratio(Norm(t, first), Norm(t, second))
  {
    var a, b := Norm(t, first), Norm(t, second);
    if |a| == 0 && |b| == 0 {
      return 0.0;
    }
    var prev: seq<int> := seq(|b| + 1, j => j);
    for i := 1 to |a| + 1
      invariant IsRow(a[..i - 1], b, |b| + 1, prev)
    {
      var cur := [i];
      for j := 1 to |b| + 1
        invariant IsRow(a[..i], b, j, cur)
      {
        NextCell(a, b, i, j, prev, cur);
        cur := cur + [Min(Min(prev[j] + 1, cur[j - 1] + 1), prev[j - 1] + Differ(a[i - 1], b[j - 1]))];
      }
      prev := cur;
    }
    assert a[..|a|] == a && b[..|b|] == b;
    ratio := prev[|prev| - 1] as real / Max(|a|, |b|) as real;
  }

  /** The score is symmetric, lies in [0, 1], and is zero exactly for texts with the same words. */
  lemma NedScore(t: Text, a: string, b: string)
    requires t.space(' ')
    ensures 0.0 <= Ratio(Norm(t, a), Norm(t, b)) <= 1.0
    ensures Ratio(Norm(t, a), Norm(t, b)) == Ratio(Norm(t, b), Norm(t, a))
    ensures Ratio(Norm(t, a), Norm(t, b)) == 0.0 <==> Words(t, t.lower(a)) == Words(t, t.lower(b))
    ensures Ratio(Norm(t, a), Norm(t, b)) * Max(|Norm(t, a)|, |Norm(t, b)|) as real == Distance(Norm(t, a), Norm(t, b)) as real
  {
    RatioFacts(Norm(t, a), Norm(t, b));
    WordsOfJoin(t, Words(t, t.lower(a)));
    WordsOfJoin(t, Words(t, t.lower(b)));
  }

  lemma RatioFacts(x: string, y: string)
    ensures 0.0 <= Ratio(x, y) <= 1.0
    ensures Ratio(x, y) == Ratio(y, x)
    ensures Ratio(x, y) == 0.0 <==> x == y
    ensures Ratio(x, y) * Max(|x|, |y|) as real == Distance(x, y) as real
  {
    DistanceBounds(x, y);
    DistanceSymmetric(x, y);
    DistanceZeroIff(x, y);
    hide Distance;
    if x != [] || y != [] {
      FractionFacts(Distance(x, y) as real, Max(|x|, |y|) as real);
    }
  }

  lemma FractionFacts(d: real, m: real)
    requires 0.0 <= d <= m && m > 0.0
    ensures 0.0 <= d / m <= 1.0
    ensures d / m == 0.0 <==> d == 0.0
    ensures d / m * m == d
  {
  }
}
