/** Comma-separated list settings, as the chart writes them and the operator reads them.
A `char` is one Unicode code point here. */
module EnvList {
  import opened Sequences
  import opened Text
  import opened Wire

  function TrimLeft(s: string): string {
    if s != [] && IsSpace(s[0]) then TrimLeft(s[1..]) else s
  }

  function TrimRight(s: string): string {
    if s != [] && IsSpace(s[|s| - 1]) then TrimRight(s[..|s| - 1]) else s
  }

  function TrimSpace(s: string): string {
    TrimRight(TrimLeft(s))
  }

  /** The pieces between commas; one piece when there is no comma. */
  function Split(s: string): (parts: seq<string>)
    ensures parts != []
  {
    if s == [] then [""]
    else
      var rest := Split(s[1..]);
      if s[0] == ',' then [""] + rest else [[s[0]] + rest[0]] + rest[1..]
  }

  function Join(xs: seq<string>): string {
    if xs == [] then "" else if |xs| == 1 then xs[0] else xs[0] + "," + Join(xs[1..])
  }

  /** The trimmed pieces that are not blank, in order. */
  function Clean(parts: seq<string>): seq<string> {
    if parts == [] then []
    else
      var n := |parts| - 1;
      var p := TrimSpace(parts[n]);
      if p == "" then Clean(parts[..n]) else Clean(parts[..n]) + [p]
  }

  /** None stands for the nil slice: not configured. */
  function Parsed(env: string): Option<seq<string>> {
    var v := TrimSpace(env);
    var xs := Clean(Split(v));
    if v == "" || xs == [] then None else Some(xs)
  }

  method ParseStringSliceEnv(env: string) returns (result: Option<seq<string>>)
    ensures result == Parsed(env)
  {
    var v := TrimSpace(env);
    if v == "" {
      return None;
    }
    var parts := Split(v);
    var xs := [];
    for i := 0 to |parts|
      invariant xs == Clean(parts[..i])
    {
      assert parts[..i + 1][..i] == parts[..i];
      var trimmed := TrimSpace(parts[i]);
      if trimmed != "" {
        xs := xs + [trimmed];
      }
    }
    assert parts[..|parts|] == parts;
    if |xs| == 0 {
      return None;
    }
    return Some(xs);
  }

  // ----- Round trip -----

  /** A list element as an administrator writes it: trimmed, not blank, without a comma. */
  predicate IsItem(x: string) {
    x != "" && ',' !in x && !IsSpace(x[0]) && !IsSpace(x[|x| - 1])
  }

  predicate AreItems(xs: seq<string>) {
    forall i :: 0 <= i < |xs| ==> IsItem(xs[i])
  }

  predicate NoCommas(xs: seq<string>) {
    forall i :: 0 <= i < |xs| ==> ',' !in xs[i]
  }

  lemma TrimmedStays(s: string)
    requires s == "" || (!IsSpace(s[0]) && !IsSpace(s[|s| - 1]))
    ensures TrimSpace(s) == s
  {
  }

  lemma {:induction false} TrimLeftEdge(s: string)
    ensures TrimLeft(s) == "" || !IsSpace(TrimLeft(s)[0])
    ensures ',' !in s ==> ',' !in TrimLeft(s)
  {
    if s == [] || !IsSpace(s[0]) {
    } else {
      TrimLeftEdge(s[1..]);
    }
  }

  lemma {:induction false} TrimRightEdge(s: string)
    ensures TrimRight(s) == "" || !IsSpace(TrimRight(s)[|TrimRight(s)| - 1])
    ensures TrimRight(s) == "" || TrimRight(s)[0] == s[0]
    ensures ',' !in s ==> ',' !in TrimRight(s)
  {
    if s == [] || !IsSpace(s[|s| - 1]) {
    } else {
      TrimRightEdge(s[..|s| - 1]);
    }
  }

  lemma TrimSpaceEdges(s: string)
    requires ',' !in s
    ensures TrimSpace(s) == "" || IsItem(TrimSpace(s))
  {
    TrimLeftEdge(s);
    TrimRightEdge(TrimLeft(s));
  }

  lemma {:induction false} SplitHasNoCommas(s: string)
    ensures NoCommas(Split(s))
  {
    if s == [] {
    } else {
      SplitHasNoCommas(s[1..]);
    }
  }

  lemma {:induction false} CleanYieldsItems(parts: seq<string>)
    requires NoCommas(parts)
    ensures AreItems(Clean(parts))
  {
    hide IsItem, TrimSpace;
    if parts == [] {
    } else {
      var n := |parts| - 1;
      CleanYieldsItems(parts[..n]);
      TrimSpaceEdges(parts[n]);
    }
  }

  /** Whatever is parsed is a list of items. */
  lemma ParsedAreItems(env: string)
    requires Parsed(env).Some?
    ensures Parsed(env).value != [] && AreItems(Parsed(env).value)
  {
    SplitHasNoCommas(TrimSpace(env));
    CleanYieldsItems(Split(TrimSpace(env)));
  }

  lemma {:induction false} SplitPlain(x: string)
    requires ',' !in x
    ensures Split(x) == [x]
  {
    if x == [] {
    } else {
      assert x[0] in x;
      SplitPlain(x[1..]);
      assert [x[0]] + x[1..] == x;
    }
  }

  lemma {:induction false} SplitAtComma(x: string, rest: string)
    requires ',' !in x
    ensures Split(x + "," + rest) == [x] + Split(rest)
  {
    var whole := x + "," + rest;
    if x == [] {
      assert whole[1..] == rest;
    } else {
      assert x[0] in x && whole[0] == x[0] && whole[1..] == x[1..] + "," + rest;
      SplitAtComma(x[1..], rest);
      assert [x[0]] + x[1..] == x;
    }
  }

  lemma {:induction false} SplitUndoesJoin(xs: seq<string>)
    requires xs != [] && NoCommas(xs)
    ensures Split(Join(xs)) == xs
  {
    if |xs| == 1 {
      SplitPlain(xs[0]);
    } else {
      SplitUndoesJoin(xs[1..]);
      SplitAtComma(xs[0], Join(xs[1..]));
    }
  }

  /** Splitting loses nothing. */
  lemma {:induction false} JoinUndoesSplit(s: string)
    ensures Join(Split(s)) == s
  {
    if s == [] {
    } else {
      var rest := Split(s[1..]);
      JoinUndoesSplit(s[1..]);
      assert s == [s[0]] + s[1..];
      if s[0] == ',' {
        assert ([""] + rest)[1..] == rest;
      } else if |rest| > 1 {
        assert ([[s[0]] + rest[0]] + rest[1..])[1..] == rest[1..];
      }
    }
  }

  lemma {:induction false} CleanKeepsItems(xs: seq<string>)
    requires AreItems(xs)
    ensures Clean(xs) == xs
  {
    hide IsSpace, TrimSpace;
    if xs == [] {
    } else {
      CleanKeepsItems(xs[..|xs| - 1]);
      TrimmedStays(xs[|xs| - 1]);
    }
  }

  lemma {:induction false} JoinIsTrimmed(xs: seq<string>)
    requires xs != [] && AreItems(xs)
    ensures Join(xs) != "" && Join(xs)[0] == xs[0][0]
    ensures !IsSpace(Join(xs)[0]) && !IsSpace(Join(xs)[|Join(xs)| - 1])
  {
    if |xs| > 1 {
      JoinIsTrimmed(xs[1..]);
    }
  }

  /** What the chart joins, the operator reads back. */
  lemma ParseUndoesJoin(xs: seq<string>)
    requires xs != [] && AreItems(xs)
    ensures Parsed(Join(xs)) == Some(xs)
  {
    JoinIsTrimmed(xs);
    TrimmedStays(Join(xs));
    SplitUndoesJoin(xs);
    CleanKeepsItems(xs);
  }

  /** Joining what was parsed and parsing again changes nothing. */
  lemma ParseIsStable(env: string)
    requires Parsed(env).Some?
    ensures Parsed(Join(Parsed(env).value)) == Parsed(env)
  {
    ParsedAreItems(env);
    ParseUndoesJoin(Parsed(env).value);
  }

  /** Items are the only lists that survive: a join is read back unchanged exactly then. */
  lemma RoundTripIff(xs: seq<string>)
    requires xs != []
    ensures Parsed(Join(xs)) == Some(xs) <==> AreItems(xs)
  {
    if AreItems(xs) {
      ParseUndoesJoin(xs);
    } else if Parsed(Join(xs)).Some? {
      ParsedAreItems(Join(xs));
    }
  }

  // ----- What trimming and parsing keep -----

  predicate AllSpace(s: string) {
    forall i :: 0 <= i < |s| ==> IsSpace(s[i])
  }

  predicate SpaceFreeEdges(s: string) {
    s == "" || (!IsSpace(s[0]) && !IsSpace(s[|s| - 1]))
  }

  lemma {:induction false} TrimLeftDrops(a: string, t: string)
    requires AllSpace(a)
    ensures TrimLeft(a + t) == TrimLeft(t)
  {
    if a == [] {
      assert a + t == t;
    } else {
      assert (a + t)[1..] == a[1..] + t;
      TrimLeftDrops(a[1..], t);
    }
  }

  lemma {:induction false} TrimRightDrops(t: string, b: string)
    requires AllSpace(b)
    ensures TrimRight(t + b) == TrimRight(t)
  {
    if b == [] {
      assert t + b == t;
    } else {
      var n := |b| - 1;
      assert (t + b)[..|t + b| - 1] == t + b[..n];
      TrimRightDrops(t, b[..n]);
    }
  }

  /** Spaces around a text with space-free edges: trimming gives the text. */
  lemma TrimDropsSpaces(a: string, m: string, b: string)
    requires AllSpace(a) && SpaceFreeEdges(m) && AllSpace(b)
    ensures TrimSpace(a + m + b) == m
  {
    assert a + m + b == a + (m + b);
    TrimLeftDrops(a, m + b);
    if m == "" {
      assert m + b == b && b + "" == b;
      TrimLeftDrops(b, "");
    } else {
      assert (m + b)[0] == m[0];
      TrimRightDrops(m, b);
    }
  }

  lemma {:induction false} TrimLeftPads(s: string) returns (a: string)
    ensures AllSpace(a) && s == a + TrimLeft(s)
  {
    hide IsSpace;
    if s == [] || !IsSpace(s[0]) {
      a := "";
    } else {
      var rest := TrimLeftPads(s[1..]);
      a := [s[0]] + rest;
      assert s == [s[0]] + s[1..];
    }
  }

  lemma {:induction false} TrimRightPads(s: string) returns (b: string)
    ensures AllSpace(b) && s == TrimRight(s) + b
  {
    hide IsSpace;
    if s == [] || !IsSpace(s[|s| - 1]) {
      b := "";
    } else {
      var rest := TrimRightPads(s[..|s| - 1]);
      b := rest + [s[|s| - 1]];
      assert s == s[..|s| - 1] + [s[|s| - 1]];
    }
  }

  /** And every string is its trimmed text with spaces around, so the two fix trimming. */
  lemma TrimPads(s: string) returns (a: string, b: string)
    ensures AllSpace(a) && AllSpace(b) && SpaceFreeEdges(TrimSpace(s)) && s == a + TrimSpace(s) + b
  {
    hide TrimLeft, TrimRight, IsSpace;
    a := TrimLeftPads(s);
    b := TrimRightPads(TrimLeft(s));
    TrimLeftEdge(s);
    TrimRightEdge(TrimLeft(s));
  }

  lemma {:induction false} CleanCons(x: string, xs: seq<string>)
    ensures Clean([x] + xs) == Clean([x]) + Clean(xs)
  {
    hide TrimSpace;
    if xs == [] {
      assert [x] + xs == [x];
    } else {
      var n := |xs| - 1;
      assert ([x] + xs)[..|xs|] == [x] + xs[..n];
      CleanCons(x, xs[..n]);
    }
  }

  lemma CleanOne(x: string)
    ensures Clean([x]) == if TrimSpace(x) == "" then [] else [TrimSpace(x)]
  {
    assert [x][..0] == [];
    assert Clean([x][..0]) == [];
  }

  lemma SpaceIsNoComma(c: char)
    requires IsSpace(c)
    ensures c != ','
  {
  }

  lemma LeadingSpaceIsLost(c: char, s: string)
    requires IsSpace(c)
    ensures Clean(Split([c] + s)) == Clean(Split(s))
  {
    hide Clean;
    var rest := Split(s);
    SpaceIsNoComma(c);
    assert ([c] + s)[1..] == s;
    assert ([c] + rest[0])[1..] == rest[0];
    assert rest == [rest[0]] + rest[1..];
    CleanCons([c] + rest[0], rest[1..]);
    CleanCons(rest[0], rest[1..]);
    CleanOne([c] + rest[0]);
    CleanOne(rest[0]);
  }

  lemma {:induction false} JoinLast(init: seq<string>, x: string, c: char)
    ensures Join(init + [x + [c]]) == Join(init + [x]) + [c]
  {
    if init == [] {
      assert init + [x + [c]] == [x + [c]] && init + [x] == [x];
    } else {
      JoinLast(init[1..], x, c);
      assert (init + [x + [c]])[1..] == init[1..] + [x + [c]] && (init + [x])[1..] == init[1..] + [x];
    }
  }

  lemma SplitSnoc(s: string, c: char)
    requires c != ','
    ensures var parts := Split(s); Split(s + [c]) == parts[..|parts| - 1] + [parts[|parts| - 1] + [c]]
  {
    hide Split, Join;
    var parts := Split(s);
    var init, last := parts[..|parts| - 1], parts[|parts| - 1];
    SplitHasNoCommas(s);
    JoinUndoesSplit(s);
    JoinLast(init, last, c);
    assert init + [last] == parts;
    SplitUndoesJoin(init + [last + [c]]);
  }

  lemma TrimIgnoresLast(x: string, c: char)
    requires IsSpace(c)
    ensures TrimSpace(x + [c]) == TrimSpace(x)
  {
    hide TrimSpace;
    var a, b := TrimPads(x);
    TrimDropsSpaces(a, TrimSpace(x), b + [c]);
    assert x + [c] == a + TrimSpace(x) + (b + [c]);
  }

  lemma TrailingSpaceIsLost(s: string, c: char)
    requires IsSpace(c)
    ensures Clean(Split(s + [c])) == Clean(Split(s))
  {
    hide TrimSpace, Split, IsSpace;
    var parts := Split(s);
    var n := |parts| - 1;
    SpaceIsNoComma(c);
    SplitSnoc(s, c);
    TrimIgnoresLast(parts[n], c);
    assert (parts[..n] + [parts[n] + [c]])[..n] == parts[..n];
  }

  lemma {:induction false} LeadingSpacesAreLost(a: string, s: string)
    requires AllSpace(a)
    ensures Clean(Split(a + s)) == Clean(Split(s))
  {
    hide Clean, Split;
    if a == [] {
      assert a + s == s;
    } else {
      assert a + s == [a[0]] + (a[1..] + s);
      LeadingSpaceIsLost(a[0], a[1..] + s);
      LeadingSpacesAreLost(a[1..], s);
    }
  }

  lemma {:induction false} TrailingSpacesAreLost(s: string, b: string)
    requires AllSpace(b)
    ensures Clean(Split(s + b)) == Clean(Split(s))
  {
    hide Clean, Split;
    if b == [] {
      assert s + b == s;
    } else {
      var n := |b| - 1;
      assert s + b == (s + b[..n]) + [b[n]];
      TrailingSpaceIsLost(s + b[..n], b[n]);
      TrailingSpacesAreLost(s, b[..n]);
    }
  }

  function TrimEach(pieces: seq<string>): seq<string> {
    seq(|pieces|, i requires 0 <= i < |pieces| => TrimSpace(pieces[i]))
  }

  function NotBlank(): string -> bool {
    (x: string) => x != ""
  }

  lemma {:induction false} CleanIsKeep(pieces: seq<string>)
    ensures Clean(pieces) == Keep(NotBlank(), TrimEach(pieces))
  {
    hide TrimSpace;
    if pieces == [] {
    } else {
      var n := |pieces| - 1;
      CleanIsKeep(pieces[..n]);
      assert TrimEach(pieces)[..n] == TrimEach(pieces[..n]);
    }
  }

  lemma NothingToClean()
    ensures Clean(Split("")) == []
  {
    CleanOne("");
  }

  /** The parse of any pieces written with commas between them is the trimmed pieces that are not
      blank, in order, or nothing when there is none. */
  lemma ParseOfPieces(pieces: seq<string>)
    requires pieces != [] && NoCommas(pieces)
    ensures var kept := Keep(NotBlank(), TrimEach(pieces));
            Parsed(Join(pieces)) == if kept == [] then None else Some(kept)
  {
    hide TrimSpace, Split, Clean;
    var s := Join(pieces);
    var a, b := TrimPads(s);
    var v := TrimSpace(s);
    LeadingSpacesAreLost(a, v + b);
    TrailingSpacesAreLost(v, b);
    assert s == a + (v + b);
    SplitUndoesJoin(pieces);
    CleanIsKeep(pieces);
    NothingToClean();
  }

  lemma KeepThree()
    ensures Keep(NotBlank(), ["ns1", "", "ns2"]) == ["ns1", "ns2"]
  {
    assert ["ns1", "", "ns2"][..2] == ["ns1", ""] && ["ns1", ""][..1] == ["ns1"] && ["ns1"][..0] == [];
    assert Keep(NotBlank(), ["ns1"]) == ["ns1"] && Keep(NotBlank(), ["ns1", ""]) == ["ns1"];
  }

  /** The example of the source: blanks around and between are dropped. */
  lemma BlanksAreDropped()
    ensures Parsed(" ns1 , , ns2 ") == Some(["ns1", "ns2"])
  {
    hide TrimSpace, Parsed;
    var pieces := [" ns1 ", " ", " ns2 "];
    TrimDropsSpaces(" ", "ns1", " ");
    TrimDropsSpaces(" ", "", "");
    TrimDropsSpaces(" ", "ns2", " ");
    assert " " + "ns1" + " " == " ns1 " && " " + "" + "" == " " && " " + "ns2" + " " == " ns2 ";
    assert TrimEach(pieces) == ["ns1", "", "ns2"];
    KeepThree();
    assert pieces[1..] == [" ", " ns2 "] && pieces[1..][1..] == [" ns2 "];
    assert Join(pieces[1..][1..]) == " ns2 " && Join(pieces[1..]) == " , ns2 " && Join(pieces) == " ns1 , , ns2 ";
    ParseOfPieces(pieces);
  }

}
