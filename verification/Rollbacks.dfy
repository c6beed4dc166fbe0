/** What counts as a rollback, by the numbers and words in the annotations. */
module Rollbacks {
  import opened Text
  import opened Wire
  import opened Mapper
  import opened Runs
  import opened DeploymentRuns

  // ----- Numbers as annotations spell them -----

  function Digit(d: nat): char
    requires d < 10
  {
    ('0' as int + d) as char
  }

  function Decimal(n: nat): string {
    if n < 10 then [Digit(n)] else Decimal(n / 10) + [Digit(n % 10)]
  }

  predicate AllDigits(s: string) {
    forall i :: 0 <= i < |s| ==> IsDigit(s[i])
  }

  /** White space that a scan skips: anything but a newline. */
  predicate AllBlank(s: string) {
    forall i :: 0 <= i < |s| ==> IsSpace(s[i]) && s[i] != '\n'
  }

  lemma {:induction false} DecimalDigits(n: nat)
    ensures Decimal(n) != "" && AllDigits(Decimal(n)) && DigitsValue(Decimal(n)) == n
  {
    if n < 10 {
      assert Decimal(n)[..0] == [];
      assert DigitsValue(Decimal(n)[..0]) == 0;
    } else {
      DecimalDigits(n / 10);
      assert Decimal(n)[..|Decimal(n)| - 1] == Decimal(n / 10);
    }
  }

  lemma {:induction false} DigitsEndAt(ds: string, rest: string)
    requires AllDigits(ds) && (rest == "" || !IsDigit(rest[0]))
    ensures DigitsPrefix(ds + rest) == |ds|
  {
    if ds == [] {
      assert ds + rest == rest;
    } else {
      DigitsEndAt(ds[1..], rest);
      assert (ds + rest)[1..] == ds[1..] + rest;
    }
  }

  lemma {:induction false} BlanksAreSkipped(blanks: string, t: string)
    requires AllBlank(blanks) && (t == "" || !IsSpace(t[0]) || t[0] == '\n')
    ensures SkipSpaces(blanks + t) == t
  {
    if blanks == [] {
      assert blanks + t == t;
    } else {
      BlanksAreSkipped(blanks[1..], t);
      assert (blanks + t)[1..] == blanks[1..] + t;
    }
  }

  predicate Sign(s: string) {
    s == "" || s == "+" || s == "-"
  }

  predicate Fits64(v: int) {
    -0x8000_0000_0000_0000 <= v < 0x8000_0000_0000_0000
  }

  lemma ParsesDigits(s: string, sign: string, digits: string, rest: string)
    requires Sign(sign) && digits != "" && AllDigits(digits) && (rest == "" || !IsDigit(rest[0]))
    requires SkipSpaces(s) == sign + (digits + rest)
    ensures var v: int := if sign == "-" then -DigitsValue(digits) else DigitsValue(digits);
            ParseRevision(s) == if Fits64(v) then Some(v) else None
  {
    hide SkipSpaces, DigitsPrefix, DigitsValue;
    var t, u := SkipSpaces(s), digits + rest;
    DigitsEndAt(digits, rest);
    assert u[0] == digits[0] && IsDigit(digits[0]) && u[..|digits|] == digits;
    if sign == "" {
      assert t == u;
    } else {
      assert t[0] == sign[0] && t[1..] == u;
    }
  }

  /** Blanks, a sign, a decimal number and anything after it: the number, when it fits. */
  lemma ParsesNumber(blanks: string, sign: string, n: nat, rest: string)
    requires AllBlank(blanks) && Sign(sign) && (rest == "" || !IsDigit(rest[0]))
    ensures var v: int := if sign == "-" then -(n as int) else n;
            ParseRevision(blanks + (sign + (Decimal(n) + rest))) == if Fits64(v) then Some(v) else None
  {
    hide ParseRevision, DigitsValue, Decimal;
    var t := sign + (Decimal(n) + rest);
    DecimalDigits(n);
    assert t[0] == if sign == "" then Decimal(n)[0] else sign[0];
    BlanksAreSkipped(blanks, t);
    ParsesDigits(blanks + t, sign, Decimal(n), rest);
  }

  /** Blanks, perhaps a sign, and then no digit: no number. */
  lemma ParsesNoNumber(blanks: string, sign: string, rest: string)
    requires AllBlank(blanks) && Sign(sign) && (rest == "" || !IsDigit(rest[0]))
    requires sign == "" && rest != "" ==> rest[0] != '+' && rest[0] != '-' && (!IsSpace(rest[0]) || rest[0] == '\n')
    ensures ParseRevision(blanks + sign + rest) == None
  {
    var t := sign + rest;
    BlanksAreSkipped(blanks, t);
    assert blanks + sign + rest == blanks + t;
    assert sign == "" ==> t == rest;
    assert sign != "" ==> t[0] == sign[0] && t[1..] == rest;
  }

  lemma DecimalParses(n: nat)
    ensures ParseRevision(Decimal(n)) == if Fits64(n) then Some(n) else None
  {
    hide ParseRevision, Decimal;
    ParsesNumber("", "", n, "");
    assert "" + ("" + (Decimal(n) + "")) == Decimal(n);
  }

  // ----- Words -----

  /** Dictionary order by code points: a first difference decides, else the shorter comes first. */
  ghost predicate LexBefore(a: string, b: string) {
    exists i: nat :: i <= |a| && i < |b| && a[..i] == b[..i] && (i == |a| || a[i] < b[i])
  }

  lemma {:induction false} LexLessMeans(a: string, b: string)
    ensures LexLess(a, b) <==> LexBefore(a, b)
  {
    if a == [] || b == [] {
      if b != [] {
        assert a[..0] == b[..0];
      }
    } else {
      LexLessMeans(a[1..], b[1..]);
      if a[0] < b[0] {
        assert a[..0] == b[..0];
      }
      if a[0] == b[0] && LexBefore(a[1..], b[1..]) {
        var i: nat :| i <= |a[1..]| && i < |b[1..]| && a[1..][..i] == b[1..][..i] && (i == |a[1..]| || a[1..][i] < b[1..][i]);
        assert a[..i + 1] == [a[0]] + a[1..][..i] && b[..i + 1] == [b[0]] + b[1..][..i];
      }
      if LexBefore(a, b) {
        var i: nat :| i <= |a| && i < |b| && a[..i] == b[..i] && (i == |a| || a[i] < b[i]);
        if i > 0 {
          assert a[..i][0] == b[..i][0];
          assert a[1..][..i - 1] == a[..i][1..] && b[1..][..i - 1] == b[..i][1..];
        }
      }
    }
  }

  /** `c` spells the small letter `l` in either case; the Kelvin sign is a capital k. */
  predicate Spells(c: char, l: char)
    requires 'a' <= l <= 'z'
  {
    c == l || c as int == l as int - 32 || (l == 'k' && c == '\U{212a}')
  }

  const ROLLBACK := "rollback"

  predicate SpelledAt(s: string, p: nat)
    requires p + 8 <= |s|
  {
    && Spells(s[p], 'r') && Spells(s[p + 1], 'o') && Spells(s[p + 2], 'l') && Spells(s[p + 3], 'l')
    && Spells(s[p + 4], 'b') && Spells(s[p + 5], 'a') && Spells(s[p + 6], 'c') && Spells(s[p + 7], 'k')
  }

  /** The word appears somewhere, in any case. */
  predicate MentionsRollback(s: string) {
    exists p :: 0 <= p <= |s| - 8 && SpelledAt(s, p)
  }

  lemma SpelledAtMeans(s: string, p: nat)
    requires p <= |s|
    ensures HasPrefix(ToLower(s)[p..], ROLLBACK) <==> p + 8 <= |s| && SpelledAt(s, p)
  {
    var low := ToLower(s);
    if p + 8 <= |s| {
      assert low[p..][..8] == low[p..p + 8];
      assert low[p..p + 8] == [low[p], low[p + 1], low[p + 2], low[p + 3], low[p + 4], low[p + 5], low[p + 6], low[p + 7]];
      assert ROLLBACK == ['r', 'o', 'l', 'l', 'b', 'a', 'c', 'k'];
    }
  }

  lemma MentionsMeans(s: string)
    ensures Contains(ToLower(s), ROLLBACK) <==> MentionsRollback(s)
  {
    if Contains(ToLower(s), ROLLBACK) {
      var p :| 0 <= p <= |ToLower(s)| && HasPrefix(ToLower(s)[p..], ROLLBACK);
      SpelledAtMeans(s, p);
    }
    if MentionsRollback(s) {
      var p :| 0 <= p <= |s| - 8 && SpelledAt(s, p);
      SpelledAtMeans(s, p);
    }
  }

  // ----- The report -----

  function RevisionIn(d: Deployment): string {
    Lookup(d.annotations, "deployment.kubernetes.io/revision")
  }

  function CauseIn(d: Deployment): string {
    Lookup(d.annotations, "kubernetes.io/change-cause")
  }

  predicate ReportsRollback(id: string, was: Option<Deployment>, n: Deployment) {
    Emits(DeployEvents(id, was, n), "DEPLOY_ROLLED_BACK")
  }

  /** With numbers for revisions and the change-cause as it was: exactly a smaller number. */
  lemma FallingRevisionIff(id: string, was: Deployment, n: Deployment, x: nat, y: nat)
    requires RevisionIn(was) == Decimal(x) && RevisionIn(n) == Decimal(y) && Fits64(x) && Fits64(y)
    requires CauseIn(n) == CauseIn(was)
    ensures ReportsRollback(id, Some(was), n) <==> y < x
  {
    hide DeployEvents, Emits, ParseRevision;
    DecimalDigits(x);
    DecimalDigits(y);
    DecimalParses(x);
    DecimalParses(y);
    RollbackIsAlone(id, Some(was), n);
  }

  /** A revision that does not start like a number. */
  predicate Wordy(rev: string) {
    rev != "" && !IsDigit(rev[0]) && rev[0] != '+' && rev[0] != '-' && (!IsSpace(rev[0]) || rev[0] == '\n')
  }

  lemma WordyParses(rev: string)
    ensures Wordy(rev) ==> ParseRevision(rev) == None
  {
    if Wordy(rev) {
      ParsesNoNumber("", "", rev);
      assert "" + "" + rev == rev;
    }
  }

  /** With a revision that is no number and the change-cause as it was: exactly dictionary order. */
  lemma WordyRevisionIff(id: string, was: Deployment, n: Deployment)
    requires RevisionIn(was) != "" && RevisionIn(n) != "" && (Wordy(RevisionIn(was)) || Wordy(RevisionIn(n)))
    requires CauseIn(n) == CauseIn(was)
    ensures ReportsRollback(id, Some(was), n) <==> LexBefore(RevisionIn(n), RevisionIn(was))
  {
    hide DeployEvents, Emits, ParseRevision, LexBefore;
    WordyParses(RevisionIn(was));
    WordyParses(RevisionIn(n));
    LexLessMeans(RevisionIn(n), RevisionIn(was));
    RollbackIsAlone(id, Some(was), n);
  }

  /** With no revision to compare, or the same one: exactly a new change-cause that mentions a
      rollback in any case. An added Deployment has no revision and no cause before it. */
  lemma RollbackCauseIff(id: string, was: Option<Deployment>, n: Deployment)
    requires was.None? || RevisionIn(was.value) == "" || RevisionIn(n) == "" || RevisionIn(n) == RevisionIn(was.value)
    ensures ReportsRollback(id, was, n) <==>
            MentionsRollback(CauseIn(n)) && (was.Some? ==> CauseIn(n) != CauseIn(was.value))
  {
    hide DeployEvents, Emits, RevisionLess, Contains, ToLower;
    MentionsMeans(CauseIn(n));
    RevisionLessIrreflexive(RevisionIn(n));
    RollbackIsAlone(id, was, n);
  }

  /** A new change-cause that mentions a rollback is enough, whatever the revisions. */
  lemma RollbackCauseSuffices(id: string, was: Option<Deployment>, n: Deployment)
    requires MentionsRollback(CauseIn(n)) && (was.Some? ==> CauseIn(n) != CauseIn(was.value))
    ensures ReportsRollback(id, was, n)
  {
    hide DeployEvents, Emits, RevisionLess, Contains, ToLower;
    MentionsMeans(CauseIn(n));
    RollbackIsAlone(id, was, n);
  }

  /** Ten after nine is no rollback, two after three is one. */
  lemma TenFollowsNine(id: string, was: Deployment, n: Deployment)
    requires CauseIn(n) == CauseIn(was)
    ensures RevisionIn(was) == "9" && RevisionIn(n) == "10" ==> !ReportsRollback(id, Some(was), n)
    ensures RevisionIn(was) == "3" && RevisionIn(n) == "2" ==> ReportsRollback(id, Some(was), n)
  {
    hide ReportsRollback;
    assert Decimal(9) == "9" && Decimal(10) == "10" && Decimal(3) == "3" && Decimal(2) == "2";
    if RevisionIn(was) == "9" && RevisionIn(n) == "10" {
      FallingRevisionIff(id, was, n, 9, 10);
    }
    if RevisionIn(was) == "3" && RevisionIn(n) == "2" {
      FallingRevisionIff(id, was, n, 3, 2);
    }
  }

  // ----- What the events carry -----

  function ReasonFor(kind: string): string {
    if kind == "DEPLOY_STARTED" then "Started"
    else if kind == "DEPLOY_SUCCEEDED" then "Succeeded"
    else if kind == "DEPLOY_FAILED" then "ProgressDeadlineExceeded"
    else if kind == "DEPLOY_CANCELLED" then "ScaleToZero"
    else "RolledBack"
  }

  predicate CarriesReason(ev: Event) {
    "k8s.reason" in ev.attributes && ev.attributes["k8s.reason"] == Words(ReasonFor(ev.kind))
  }

  /** A number, or the text when it is none; nothing for an empty annotation. */
  predicate CarriesRevision(ev: Event, rev: Option<Attr>) {
    match rev
    case Some(a) => "k8s.rollout.revision" in ev.attributes && ev.attributes["k8s.rollout.revision"] == a
    case None => "k8s.rollout.revision" !in ev.attributes
  }

  lemma RevisionAttrsSay(reason: string, rev: string)
    ensures var attrs := RevisionAttrs(reason, rev);
            && "k8s.reason" in attrs && attrs["k8s.reason"] == Words(reason)
            && (rev == "" ==> "k8s.rollout.revision" !in attrs)
            && (Wordy(rev) ==> "k8s.rollout.revision" in attrs && attrs["k8s.rollout.revision"] == Words(rev))
            && (forall x: nat :: rev == Decimal(x) && Fits64(x) ==>
                  "k8s.rollout.revision" in attrs && attrs["k8s.rollout.revision"] == Number(x))
  {
    hide ParseRevision, Decimal;
    assert |"k8s.reason"| != |"k8s.rollout.revision"|;
    WordyParses(rev);
    ParsesNoNumber("", "", "");
    assert "" + "" + "" == "";
    forall x: nat | rev == Decimal(x) && Fits64(x)
      ensures ParseRevision(rev) == Some(x)
    {
      DecimalParses(x);
    }
  }

  /** Every DEPLOY_* event says why, and carries the revision annotation: as a number when it is
      one, as text when it starts like none, and not at all when there is none. */
  lemma DeployEventsSay(id: string, was: Option<Deployment>, n: Deployment, i: nat)
    requires i < |DeployEvents(id, was, n)|
    ensures var ev := DeployEvents(id, was, n)[i];
            && CarriesReason(ev)
            && (RevisionIn(n) == "" ==> CarriesRevision(ev, None))
            && (Wordy(RevisionIn(n)) ==> CarriesRevision(ev, Some(Words(RevisionIn(n)))))
            && (forall x: nat :: RevisionIn(n) == Decimal(x) && Fits64(x) ==> CarriesRevision(ev, Some(Number(x))))
  {
    hide RolledBack, IsDeployStarted, IsDeploySucceeded, IsDeployFailed, IsDeployCancelled, RevisionAttrs, Decimal, Wordy;
    var ev := DeployEvents(id, was, n)[i];
    KindsDistinct();
    assert ev.attributes == RevisionAttrs(ReasonFor(ev.kind), RevisionIn(n));
    RevisionAttrsSay(ReasonFor(ev.kind), RevisionIn(n));
  }
}
