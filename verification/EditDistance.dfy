/** The edit distance behind the service-id hint.

Strings are sequences of bytes in the program; a `char` stands for one byte here.
The reference notion is a script of positional edits; the program's two-row table
is shown to return the length of a shortest script. */
module EditDistance {

  function Min3(a: nat, b: nat, c: nat): (m: nat)
    ensures m <= a && m <= b && m <= c
    ensures m == a || m == b || m == c
  {
    if a < b then
      if a < c then a else c
    else if b < c then b
    else c
  }

  function Cost(x: char, y: char): nat {
    if x == y then 0 else 1
  }

  function Init(s: string): string
    requires s != []
  {
    s[..|s| - 1]
  }

  function Last(s: string): char
    requires s != []
  {
    s[|s| - 1]
  }

  /** The recurrence the table tabulates. */
  function Dist(a: string, b: string): nat
    decreases |a| + |b|
  {
    if a == [] then |b|
    else if b == [] then |a|
    else Min3(Dist(Init(a), b) + 1, Dist(a, Init(b)) + 1, Dist(Init(a), Init(b)) + Cost(Last(a), Last(b)))
  }

  // ----- Reference definition: scripts of single-byte edits at any position -----

  datatype Edit =
    | Insert(at: nat, c: char)
    | Delete(at: nat)
    | Substitute(at: nat, c: char)

  predicate Applies(e: Edit, s: string) {
    if e.Insert? then e.at <= |s| else e.at < |s|
  }

  function ApplyEdit(e: Edit, s: string): string
    requires Applies(e, s)
  {
    match e
    case Insert(i, c) => s[..i] + [c] + s[i..]
    case Delete(i) => s[..i] + s[i + 1..]
    case Substitute(i, c) => s[..i] + [c] + s[i + 1..]
  }

  /** Performing `script` on `a`, edit by edit, ends in `b`. */
  predicate Turns(script: seq<Edit>, a: string, b: string) {
    if script == [] then a == b
    else Applies(script[0], a) && Turns(script[1..], ApplyEdit(script[0], a), b)
  }

  /** `d` is the length of a shortest edit script from `a` to `b`. */
  ghost predicate IsEditDistance(d: nat, a: string, b: string) {
    && (exists script :: Turns(script, a, b) && |script| == d)
    && (forall script :: Turns(script, a, b) ==> d <= |script|)
  }

  lemma DistLast(a: string, x: char, b: string, y: char)
    ensures Dist(a + [x], b + [y]) == Min3(Dist(a, b + [y]) + 1, Dist(a + [x], b) + 1, Dist(a, b) + Cost(x, y))
  {
    assert Init(a + [x]) == a && Init(b + [y]) == b;
  }

  // ----- Metric laws -----

  lemma {:induction false} DistSymmetric(a: string, b: string)
    ensures Dist(a, b) == Dist(b, a)
    decreases |a| + |b|
  {
    if a == [] || b == [] {
    } else {
      DistSymmetric(Init(a), b);
      DistSymmetric(a, Init(b));
      DistSymmetric(Init(a), Init(b));
    }
  }

  /** The distance lies between the length difference and the longer length. */
  lemma {:induction false} DistBounds(a: string, b: string)
    ensures |a| - |b| <= Dist(a, b) && |b| - |a| <= Dist(a, b)
    ensures Dist(a, b) <= if |a| < |b| then |b| else |a|
    decreases |a| + |b|
  {
    if a == [] || b == [] {
    } else {
      DistBounds(Init(a), b);
      DistBounds(a, Init(b));
      DistBounds(Init(a), Init(b));
    }
  }

  lemma {:induction false} DistSelf(a: string)
    ensures Dist(a, a) == 0
  {
    if a == [] {
    } else {
      DistSelf(Init(a));
    }
  }

  lemma {:induction false} DistZeroMeansEqual(a: string, b: string)
    requires Dist(a, b) == 0
    ensures a == b
    decreases |a| + |b|
  {
    if a == [] || b == [] {
    } else {
      DistZeroMeansEqual(Init(a), Init(b));
      assert a == Init(a) + [Last(a)] && b == Init(b) + [Last(b)];
    }
  }

  lemma DistZeroIffEqual(a: string, b: string)
    ensures Dist(a, b) == 0 <==> a == b
  {
    DistSelf(a);
    if Dist(a, b) == 0 {
      DistZeroMeansEqual(a, b);
    }
  }

  lemma {:induction false} DistTriangle(a: string, b: string, c: string)
    ensures Dist(a, c) <= Dist(a, b) + Dist(b, c)
    decreases |a| + |b| + |c|
  {
    if a == [] || b == [] || c == [] {
      DistBounds(a, b);
      DistBounds(b, c);
      DistBounds(a, c);
    } else {
      DistTriangle(Init(a), b, c);
      DistTriangle(a, b, Init(c));
      DistTriangle(a, Init(b), c);
      DistTriangle(a, Init(b), Init(c));
      DistTriangle(Init(a), Init(b), c);
      DistTriangle(Init(a), Init(b), Init(c));
    }
  }

  // ----- No script is shorter -----

  lemma DistInsertLast(a: string, b: string, x: char)
    ensures Dist(a, b + [x]) <= Dist(a, b) + 1
  {
    if a != [] {
      assert Init(b + [x]) == b;
    }
  }

  lemma DistCommonLast(a: string, b: string, y: char)
    ensures Dist(a + [y], b + [y]) <= Dist(a, b)
  {
    DistLast(a, y, b, y);
  }

  lemma SplitLast(a: string, s: string)
    requires s != []
    ensures a + s == a + Init(s) + [Last(s)]
  {
  }

  lemma {:induction false} DistCommonSuffix(a: string, b: string, s: string)
    ensures Dist(a + s, b + s) <= Dist(a, b)
  {
    if s == [] {
      assert a + s == a && b + s == b;
    } else {
      DistCommonSuffix(a, b, Init(s));
      DistCommonLast(a + Init(s), b + Init(s), Last(s));
      SplitLast(a, s);
      SplitLast(b, s);
    }
  }

  lemma OneInsertCostsAtMostOne(s: string, i: nat, c: char)
    requires i <= |s|
    ensures Dist(s, s[..i] + [c] + s[i..]) <= 1
  {
    DistSelf(s[..i]);
    DistInsertLast(s[..i], s[..i], c);
    DistCommonSuffix(s[..i], s[..i] + [c], s[i..]);
    assert s == s[..i] + s[i..];
  }

  lemma OneSubstitutionCostsAtMostOne(p: string, x: char, c: char, q: string)
    ensures Dist(p + [x] + q, p + [c] + q) <= 1
  {
    DistSelf(p);
    DistLast(p, x, p, c);
    DistCommonSuffix(p + [x], p + [c], q);
  }

  lemma OneEditCostsAtMostOne(e: Edit, s: string)
    requires Applies(e, s)
    ensures Dist(s, ApplyEdit(e, s)) <= 1
  {
    var i := e.at;
    match e
    case Insert(_, c) =>
      OneInsertCostsAtMostOne(s, i, c);
    case Delete(_) =>
      var t := s[..i] + s[i + 1..];
      OneInsertCostsAtMostOne(t, i, s[i]);
      assert t[..i] + [s[i]] + t[i..] == s;
      DistSymmetric(s, t);
    case Substitute(_, c) =>
      OneSubstitutionCostsAtMostOne(s[..i], s[i], c, s[i + 1..]);
      assert s == s[..i] + [s[i]] + s[i + 1..];
  }

  lemma {:induction false} NoScriptIsShorter(script: seq<Edit>, a: string, b: string)
    requires Turns(script, a, b)
    ensures Dist(a, b) <= |script|
  {
    if script == [] {
      DistSelf(a);
    } else {
      var mid := ApplyEdit(script[0], a);
      OneEditCostsAtMostOne(script[0], a);
      NoScriptIsShorter(script[1..], mid, b);
      DistTriangle(a, mid, b);
    }
  }

  // ----- A script of that length exists -----

  lemma {:induction false} TurnsAppend(s: seq<Edit>, e: Edit, a: string, b: string)
    requires Turns(s, a, b) && Applies(e, b)
    ensures Turns(s + [e], a, ApplyEdit(e, b))
  {
    if s == [] {
      assert [e][1..] == [];
      assert Turns([], ApplyEdit(e, b), ApplyEdit(e, b));
      assert s + [e] == [e];
    } else {
      TurnsAppend(s[1..], e, ApplyEdit(s[0], a), b);
      assert (s + [e])[1..] == s[1..] + [e];
    }
  }

  /** A script keeps working, at the same positions, when a byte is appended. */
  lemma {:induction false} TurnsUnderSnoc(script: seq<Edit>, a: string, b: string, x: char)
    requires Turns(script, a, b)
    ensures Turns(script, a + [x], b + [x])
  {
    if script == [] {
    } else {
      var e := script[0];
      assert ApplyEdit(e, a + [x]) == ApplyEdit(e, a) + [x];
      TurnsUnderSnoc(script[1..], ApplyEdit(e, a), b, x);
    }
  }

  lemma DeleteLastFirst(rest: seq<Edit>, a: string, b: string)
    requires a != [] && Turns(rest, Init(a), b)
    ensures Turns([Delete(|a| - 1)] + rest, a, b)
  {
    assert ApplyEdit(Delete(|a| - 1), a) == Init(a);
    assert ([Delete(|a| - 1)] + rest)[1..] == rest;
  }

  lemma InsertLastFinally(rest: seq<Edit>, a: string, b: string)
    requires b != [] && Turns(rest, a, Init(b))
    ensures Turns(rest + [Insert(|b| - 1, Last(b))], a, b)
  {
    var final := Insert(|b| - 1, Last(b));
    TurnsAppend(rest, final, a, Init(b));
    assert ApplyEdit(final, Init(b)) == b;
  }

  lemma ReplaceLastFinally(rest: seq<Edit>, a: string, b: string) returns (script: seq<Edit>)
    requires a != [] && b != [] && Turns(rest, Init(a), Init(b))
    ensures Turns(script, a, b) && |script| == |rest| + Cost(Last(a), Last(b))
  {
    hide Turns;
    var x := Last(a);
    TurnsUnderSnoc(rest, Init(a), Init(b), x);
    assert a == Init(a) + [x];
    if x == Last(b) {
      assert b == Init(b) + [x];
      script := rest;
    } else {
      var final := Substitute(|b| - 1, Last(b));
      TurnsAppend(rest, final, a, Init(b) + [x]);
      assert ApplyEdit(final, Init(b) + [x]) == b;
      script := rest + [final];
    }
  }

  lemma {:induction false} ShortestScript(a: string, b: string) returns (script: seq<Edit>)
    ensures Turns(script, a, b) && |script| == Dist(a, b)
    decreases |a| + |b|
  {
    if a == [] && b == [] {
      script := [];
    } else if b == [] || (a != [] && Dist(a, b) == Dist(Init(a), b) + 1) {
      var rest := ShortestScript(Init(a), b);
      DeleteLastFirst(rest, a, b);
      script := [Delete(|a| - 1)] + rest;
    } else if a == [] || Dist(a, b) == Dist(a, Init(b)) + 1 {
      var rest := ShortestScript(a, Init(b));
      InsertLastFinally(rest, a, b);
      script := rest + [Insert(|b| - 1, Last(b))];
    } else {
      var rest := ShortestScript(Init(a), Init(b));
      script := ReplaceLastFinally(rest, a, b);
    }
  }

  /** The recurrence computes the minimum over all edit scripts. */
  lemma DistIsEditDistance(a: string, b: string)
    ensures IsEditDistance(Dist(a, b), a, b)
  {
    var best := ShortestScript(a, b);
    assert Turns(best, a, b) && |best| == Dist(a, b);
    forall script | Turns(script, a, b)
      ensures Dist(a, b) <= |script|
    {
      NoScriptIsShorter(script, a, b);
    }
  }

  // ----- The program -----

  /** `row` continues the table below `above` for one more byte `x`. */
  predicate Continues(x: char, b: string, above: seq<nat>, row: seq<nat>)
    requires |above| == |row| == |b| + 1
  {
    && row[0] == above[0] + 1
    && forall j :: 0 < j <= |b| ==>
         row[j] == Min3(above[j] + 1, row[j - 1] + 1, above[j - 1] + Cost(x, b[j - 1]))
  }

  /** `row` holds the distances from `a` to every prefix of `b`. */
  ghost predicate IsRow(a: string, b: string, row: seq<nat>) {
    |row| == |b| + 1 && forall j {:trigger row[j]} :: 0 <= j <= |b| ==> row[j] == Dist(a, b[..j])
  }

  lemma DistToEmpty(a: string)
    ensures Dist(a, []) == |a|
  {
  }

  lemma {:induction false} NextRowAt(a: string, b: string, x: char, above: seq<nat>, row: seq<nat>, j: nat)
    requires IsRow(a, b, above) && |row| == |b| + 1 && Continues(x, b, above, row) && j <= |b|
    ensures row[j] == Dist(a + [x], b[..j])
  {
    hide Dist;
    if j == 0 {
      DistToEmpty(a);
      DistToEmpty(a + [x]);
      assert b[..0] == [];
    } else {
      NextRowAt(a, b, x, above, row, j - 1);
      var p, y := b[..j - 1], b[j - 1];
      assert p + [y] == b[..j];
      calc {
        row[j];
        Min3(above[j] + 1, row[j - 1] + 1, above[j - 1] + Cost(x, y));
        Min3(Dist(a, p + [y]) + 1, Dist(a + [x], p) + 1, Dist(a, p) + Cost(x, y));
        { DistLast(a, x, p, y); }
        Dist(a + [x], p + [y]);
      }
    }
  }

  lemma NextRow(a: string, b: string, x: char, above: seq<nat>, row: seq<nat>)
    requires IsRow(a, b, above) && |row| == |b| + 1 && Continues(x, b, above, row)
    ensures IsRow(a + [x], b, row)
  {
    forall j | 0 <= j <= |b|
      ensures row[j] == Dist(a + [x], b[..j])
    {
      NextRowAt(a, b, x, above, row, j);
    }
  }

  /** The inner loop: overwrite `curr` with the row that follows `prev`. */
  method FillRow(x: char, b: string, i: nat, prev: array<nat>, curr: array<nat>)
    requires prev != curr && prev.Length == curr.Length == |b| + 1
    requires i == prev[0] + 1
    modifies curr
    ensures Continues(x, b, prev[..], curr[..])
  {
    curr[0] := i;
    for j := 1 to |b| + 1
      invariant curr[0] == i
      invariant prev[..] == old(prev[..])
      invariant forall k :: 0 < k < j ==>
                  curr[k] == Min3(prev[k] + 1, curr[k - 1] + 1, prev[k - 1] + Cost(x, b[k - 1]))
    {
      var cost := 1;
      if x == b[j - 1] {
        cost := 0;
      }
      var del := prev[j] + 1;
      var ins := curr[j - 1] + 1;
      var sub := prev[j - 1] + cost;
      curr[j] := Min3(del, ins, sub);
    }
  }

  lemma FirstRow(b: string, row: seq<nat>)
    requires |row| == |b| + 1 && forall k :: 0 <= k <= |b| ==> row[k] == k
    ensures IsRow([], b, row)
  {
  }

  /** Two rows of the table, exchanged after every byte of `a`. */
  method TwoRows(a: string, b: string) returns (d: nat)
    ensures d == Dist(a, b)
  {
    var la, lb := |a|, |b|;
    var prev := new nat[lb + 1];
    var curr := new nat[lb + 1];
    for j := 0 to lb + 1
      invariant forall k :: 0 <= k < j ==> prev[k] == k
    {
      prev[j] := j;
    }
    FirstRow(b, prev[..]);
    assert a[..0] == [];
    for i := 1 to la + 1
      invariant prev != curr && prev.Length == curr.Length == lb + 1
      invariant fresh(prev) && fresh(curr)
      invariant prev[0] == i - 1
      invariant IsRow(a[..i - 1], b, prev[..])
    {
      FillRow(a[i - 1], b, i, prev, curr);
      NextRow(a[..i - 1], b, a[i - 1], prev[..], curr[..]);
      assert a[..i - 1] + [a[i - 1]] == a[..i];
      prev, curr := curr, prev;
    }
    assert a[..la] == a && b[..lb] == b;
    return prev[lb];
  }

  /** The distance the program computes is the length of a shortest edit script. */
  method Levenshtein(a: string, b: string) returns (d: nat)
    ensures IsEditDistance(d, a, b)
    ensures d == Dist(a, b)
  {
    if |a| == 0 {
      d := |b|;
    } else if |b| == 0 {
      d := |a|;
    } else {
      d := TwoRows(a, b);
    }
    DistIsEditDistance(a, b);
  }
}
