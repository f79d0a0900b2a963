/**
 * Version strings and their order: `SEMVER`, `isVersion` and `compareVersions` in server/agent-install.ts, and section 11 of
 * Semantic Versioning 2.0.0, which that order has to agree with.
 */
module Versions {
  import opened Wrappers

  // ---- The parts of a version string ----

  predicate Digit(c: char) {
    '0' <= c <= '9'
  }

  predicate IdChar(c: char) {
    Digit(c) || 'a' <= c <= 'z' || 'A' <= c <= 'Z' || c == '-'
  }

  predicate AllDigits(s: string) {
    s != "" && forall i :: 0 <= i < |s| ==> Digit(s[i])
  }

  predicate Identifier(s: string) {
    s != "" && forall i :: 0 <= i < |s| ==> IdChar(s[i])
  }

  /** The number a group of digits stands for; numbers of any size, where the source's lose precision beyond 2^53. */
  function Number(s: string): nat
    requires forall i :: 0 <= i < |s| ==> Digit(s[i])
  {
    if s == "" then 0
    else
      assert Digit(s[|s| - 1]);
      10 * Number(s[..|s| - 1]) + (s[|s| - 1] as int - '0' as int)
  }

  /** A version as its expression takes it apart: three groups of digits, and the prerelease's identifiers, if any. */
  datatype Version = Version(core: seq<string>, pre: seq<string>)

  predicate Group(s: string) {
    AllDigits(s) && |s| <= 9
  }

  predicate WellFormed(v: Version) {
    && |v.core| == 3 && (forall i :: 0 <= i < 3 ==> Group(v.core[i]))
    && (forall i :: 0 <= i < |v.pre| ==> Identifier(v.pre[i]))
  }

  function Joined(parts: seq<string>): string
    requires parts != []
  {
    if |parts| == 1 then parts[0] else parts[0] + "." + Joined(parts[1..])
  }

  function Written(v: Version): string
    requires WellFormed(v)
  {
    if v.pre == [] then Joined(v.core) else Joined(v.core) + "-" + Joined(v.pre)
  }

  // ---- Taking a string apart ----

  /** Where the character first is in the string, or its length. */
  function First(s: string, c: char): (n: nat)
    ensures n <= |s| && (n < |s| ==> s[n] == c)
    ensures forall i :: 0 <= i < n ==> s[i] != c
  {
    if s == "" || s[0] == c then 0 else 1 + First(s[1..], c)
  }

  function Split(s: string): (parts: seq<string>)
    ensures parts != []
    decreases |s|
  {
    var n := First(s, '.');
    if n == |s| then [s] else [s[..n]] + Split(s[n + 1..])
  }

  function Parse(s: string): Option<Version> {
    var n := First(s, '-');
    var v := Version(Split(s[..n]), if n == |s| then [] else Split(s[n + 1..]));
    if WellFormed(v) then Some(v) else None
  }

  predicate IsVersion(s: string) {
    Parse(s).Some?
  }

  lemma {:induction false} SplitJoins(s: string)
    ensures Joined(Split(s)) == s
    decreases |s|
  {
    var n := First(s, '.');
    if n < |s| {
      SplitJoins(s[n + 1..]);
      assert ([s[..n]] + Split(s[n + 1..]))[1..] == Split(s[n + 1..]);
      assert s == s[..n] + "." + s[n + 1..];
    }
  }

  lemma FirstIs(s: string, c: char, n: nat)
    requires n <= |s| && (n < |s| ==> s[n] == c) && forall i :: 0 <= i < n ==> s[i] != c
    ensures First(s, c) == n
  {
  }

  predicate Dotless(s: string) {
    forall i :: 0 <= i < |s| ==> s[i] != '.'
  }

  lemma {:induction false} JoinSplits(parts: seq<string>)
    requires parts != [] && forall i :: 0 <= i < |parts| ==> Dotless(parts[i])
    ensures Split(Joined(parts)) == parts
    decreases |parts|
  {
    var s := Joined(parts);
    assert Dotless(parts[0]);
    FirstIs(s, '.', |parts[0]|);
    if |parts| > 1 {
      forall i | 0 <= i < |parts[1..]| ensures Dotless(parts[1..][i]) {
        assert Dotless(parts[i + 1]);
      }
      JoinSplits(parts[1..]);
      var rest := Joined(parts[1..]);
      assert s[..|parts[0]|] == parts[0];
      assert s[|parts[0]| + 1..] == rest;
    }
  }

  /** Digits and dots have no dash, so the first dash ends the core. */
  lemma {:induction false} CoreHasNoDash(parts: seq<string>, i: nat)
    requires parts != [] && (forall k :: 0 <= k < |parts| ==> AllDigits(parts[k])) && i < |Joined(parts)|
    ensures Joined(parts)[i] != '-'
    decreases |parts|
  {
    assert AllDigits(parts[0]);
    if i > |parts[0]| {
      forall k | 0 <= k < |parts[1..]| ensures AllDigits(parts[1..][k]) {
        assert AllDigits(parts[k + 1]);
      }
      CoreHasNoDash(parts[1..], i - |parts[0]| - 1);
    }
  }

  /** A string is a version exactly when it is one written out, and then there is one way to read it. */
  lemma ParseReads(s: string)
    requires Parse(s).Some?
    ensures WellFormed(Parse(s).value) && Written(Parse(s).value) == s
  {
    hide Group, Identifier, Joined, Split, First;
    var n, v := First(s, '-'), Parse(s).value;
    SplitJoins(s[..n]);
    assert Joined(v.core) == s[..n];
    if n < |s| {
      SplitJoins(s[n + 1..]);
      assert Joined(v.pre) == s[n + 1..];
      assert s == s[..n] + "-" + s[n + 1..];
    } else {
      assert s[..n] == s;
    }
  }

  lemma ParseReadsBack(v: Version)
    requires WellFormed(v)
    ensures Parse(Written(v)) == Some(v)
  {
    var s, core := Written(v), Joined(v.core);
    forall i | 0 <= i < |core| ensures s[i] != '-' {
      CoreHasNoDash(v.core, i);
      assert s[i] == core[i];
    }
    FirstIs(s, '-', |core|);
    assert s[..|core|] == core;
    forall i | 0 <= i < 3 ensures Dotless(v.core[i]) {
      assert AllDigits(v.core[i]);
    }
    JoinSplits(v.core);
    if v.pre != [] {
      assert s[|core| + 1..] == Joined(v.pre);
      forall i | 0 <= i < |v.pre| ensures Dotless(v.pre[i]) {
        assert Identifier(v.pre[i]);
      }
      JoinSplits(v.pre);
    }
  }

  // ---- Section 11 of Semantic Versioning 2.0.0 ----

  predicate Numeric(id: string) {
    AllDigits(id)
  }

  /** ASCII order: at the first difference the smaller character comes first, and a string before its extensions. */
  ghost predicate AsciiBefore(a: string, b: string) {
    exists k: nat :: AsciiBeforeAt(a, b, k)
  }

  predicate AsciiBeforeAt(a: string, b: string, k: nat) {
    k <= |a| && k < |b| && a[..k] == b[..k] && (k == |a| || a[k] < b[k])
  }

  /** Numeric identifiers compare as numbers and come before the others, which compare in ASCII order. */
  ghost predicate IdBefore(a: string, b: string) {
    if Numeric(a) && Numeric(b) then Number(a) < Number(b)
    else if !Numeric(a) && !Numeric(b) then AsciiBefore(a, b)
    else Numeric(a)
  }

  predicate SameId(a: string, b: string) {
    if Numeric(a) && Numeric(b) then Number(a) == Number(b) else a == b
  }

  predicate SameIds(x: seq<string>, y: seq<string>) {
    |x| == |y| && forall i :: 0 <= i < |x| ==> SameId(x[i], y[i])
  }

  /** At the first identifiers that differ; all of them the same, the shorter prerelease comes first. */
  ghost predicate PreBefore(x: seq<string>, y: seq<string>) {
    exists k: nat :: PreBeforeAt(x, y, k)
  }

  ghost predicate PreBeforeAt(x: seq<string>, y: seq<string>, k: nat) {
    k <= |x| && k < |y| && SameIds(x[..k], y[..k]) && (k == |x| || IdBefore(x[k], y[k]))
  }

  predicate CoreBefore(v: Version, w: Version)
    requires WellFormed(v) && WellFormed(w)
  {
    exists k :: 0 <= k < 3 && Number(v.core[k]) < Number(w.core[k]) && forall i :: 0 <= i < k ==> Number(v.core[i]) == Number(w.core[i])
  }

  predicate SameCore(v: Version, w: Version)
    requires WellFormed(v) && WellFormed(w)
  {
    forall i :: 0 <= i < 3 ==> Number(v.core[i]) == Number(w.core[i])
  }

  /** `v` has lower precedence than `w`: by the core, else a prerelease before its release, else by the prereleases. */
  ghost predicate Before(v: Version, w: Version)
    requires WellFormed(v) && WellFormed(w)
  {
    CoreBefore(v, w) || (SameCore(v, w) && if v.pre == [] || w.pre == [] then v.pre != [] && w.pre == [] else PreBefore(v.pre, w.pre))
  }

  /** The same parts, with numeric identifiers read as numbers. */
  predicate SameParts(v: Version, w: Version)
    requires WellFormed(v) && WellFormed(w)
  {
    SameCore(v, w) && SameIds(v.pre, w.pre)
  }

  // ---- What compareVersions computes ----

  function Sign(n: int): int {
    if n < 0 then -1 else if n > 0 then 1 else 0
  }

  function CompareText(a: string, b: string): int {
    if a == "" && b == "" then 0
    else if a == "" then -1
    else if b == "" then 1
    else if a[0] != b[0] then (if a[0] < b[0] then -1 else 1)
    else CompareText(a[1..], b[1..])
  }

  function CompareId(a: string, b: string): int {
    if Numeric(a) && Numeric(b) then Sign(Number(a) - Number(b))
    else if Numeric(a) != Numeric(b) then (if Numeric(a) then -1 else 1)
    else CompareText(a, b)
  }

  function CompareIds(x: seq<string>, y: seq<string>): int {
    if x == [] && y == [] then 0
    else if x == [] then -1
    else if y == [] then 1
    else if CompareId(x[0], y[0]) != 0 then CompareId(x[0], y[0])
    else CompareIds(x[1..], y[1..])
  }

  function CompareCore(v: Version, w: Version, i: nat): int
    requires WellFormed(v) && WellFormed(w) && i <= 3
    decreases 3 - i
  {
    if i == 3 then 0
    else if Number(v.core[i]) != Number(w.core[i]) then Sign(Number(v.core[i]) - Number(w.core[i]))
    else CompareCore(v, w, i + 1)
  }

  function Compare(v: Version, w: Version): int
    requires WellFormed(v) && WellFormed(w)
  {
    if CompareCore(v, w, 0) != 0 then CompareCore(v, w, 0)
    else if v.pre == [] || w.pre == [] then (if v.pre != [] then -1 else if w.pre != [] then 1 else 0)
    else CompareIds(v.pre, w.pre)
  }

  // ---- The order is the precedence, and a total preorder ----

  lemma {:induction false} TextOrder(a: string, b: string)
    ensures CompareText(a, b) == -CompareText(b, a) && (CompareText(a, b) == 0 <==> a == b)
    ensures CompareText(a, b) < 0 <==> AsciiBefore(a, b)
    decreases |a|
  {
    if a == "" || b == "" || a[0] != b[0] {
      if CompareText(a, b) < 0 {
        assert AsciiBeforeAt(a, b, 0);
      }
    } else {
      TextOrder(a[1..], b[1..]);
      assert a == [a[0]] + a[1..] && b == [b[0]] + b[1..];
      if AsciiBefore(a[1..], b[1..]) {
        var k: nat :| AsciiBeforeAt(a[1..], b[1..], k);
        assert a[..k + 1] == [a[0]] + a[1..][..k] && b[..k + 1] == [b[0]] + b[1..][..k];
        assert AsciiBeforeAt(a, b, k + 1);
      }
      if AsciiBefore(a, b) {
        var k: nat :| AsciiBeforeAt(a, b, k);
        assert k > 0;
        assert a[1..][..k - 1] == a[..k][1..] && b[1..][..k - 1] == b[..k][1..];
        assert AsciiBeforeAt(a[1..], b[1..], k - 1);
      }
    }
  }

  lemma IdOrder(a: string, b: string)
    ensures CompareId(a, b) == -CompareId(b, a) && (CompareId(a, b) == 0 <==> SameId(a, b))
    ensures CompareId(a, b) < 0 <==> IdBefore(a, b)
  {
    TextOrder(a, b);
  }

  lemma {:induction false} IdsOrder(x: seq<string>, y: seq<string>)
    ensures CompareIds(x, y) == -CompareIds(y, x) && (CompareIds(x, y) == 0 <==> SameIds(x, y))
    ensures CompareIds(x, y) < 0 <==> PreBefore(x, y)
    decreases |x|
  {
    if x != [] && y != [] {
      IdOrder(x[0], y[0]);
    }
    if x == [] || y == [] || CompareId(x[0], y[0]) != 0 {
      if CompareIds(x, y) < 0 {
        assert PreBeforeAt(x, y, 0);
      }
      if PreBefore(x, y) {
        var k: nat :| PreBeforeAt(x, y, k);
        DiffersAtHead(x, y, k);
      }
    } else {
      IdsOrder(x[1..], y[1..]);
      SameIdsTail(x, y);
      if PreBefore(x[1..], y[1..]) {
        var k: nat :| PreBeforeAt(x[1..], y[1..], k);
        PreBeforeLonger(x, y, k);
      }
      if PreBefore(x, y) {
        var k: nat :| PreBeforeAt(x, y, k);
        PreBeforeShorter(x, y, k);
      }
    }
  }

  lemma DiffersAtHead(x: seq<string>, y: seq<string>, k: nat)
    requires PreBeforeAt(x, y, k)
    ensures k == 0 || (x != [] && SameId(x[0], y[0]))
  {
    if k > 0 {
      assert SameId(x[..k][0], y[..k][0]);
    }
  }

  lemma SameIdsTail(x: seq<string>, y: seq<string>)
    requires x != [] && y != [] && SameId(x[0], y[0])
    ensures SameIds(x, y) <==> SameIds(x[1..], y[1..])
  {
    if SameIds(x[1..], y[1..]) {
      forall i | 0 <= i < |x| ensures SameId(x[i], y[i]) {
        if i > 0 {
          assert SameId(x[1..][i - 1], y[1..][i - 1]);
        }
      }
    }
  }

  lemma PreBeforeLonger(x: seq<string>, y: seq<string>, k: nat)
    requires x != [] && y != [] && SameId(x[0], y[0]) && PreBeforeAt(x[1..], y[1..], k)
    ensures PreBeforeAt(x, y, k + 1)
  {
    assert x[..k + 1][1..] == x[1..][..k] && y[..k + 1][1..] == y[1..][..k];
    SameIdsTail(x[..k + 1], y[..k + 1]);
  }

  lemma PreBeforeShorter(x: seq<string>, y: seq<string>, k: nat)
    requires x != [] && y != [] && SameId(x[0], y[0]) && !IdBefore(x[0], y[0]) && PreBeforeAt(x, y, k)
    ensures k > 0 && PreBeforeAt(x[1..], y[1..], k - 1)
  {
    assert x[..k][1..] == x[1..][..k - 1] && y[..k][1..] == y[1..][..k - 1];
    SameIdsTail(x[..k], y[..k]);
  }

  lemma CoreOrder(v: Version, w: Version)
    requires WellFormed(v) && WellFormed(w)
    ensures CompareCore(v, w, 0) == -CompareCore(w, v, 0) && (CompareCore(v, w, 0) == 0 <==> SameCore(v, w))
    ensures CompareCore(v, w, 0) < 0 <==> CoreBefore(v, w)
  {
    assert CompareCore(v, w, 2) == Sign(Number(v.core[2]) - Number(w.core[2]));
    assert CompareCore(w, v, 2) == Sign(Number(w.core[2]) - Number(v.core[2]));
    assert CompareCore(v, w, 1) == if Number(v.core[1]) != Number(w.core[1]) then Sign(Number(v.core[1]) - Number(w.core[1])) else CompareCore(v, w, 2);
    assert CompareCore(w, v, 1) == if Number(v.core[1]) != Number(w.core[1]) then Sign(Number(w.core[1]) - Number(v.core[1])) else CompareCore(w, v, 2);
  }

  /**
   * `compareVersions` is the precedence of section 11: negative exactly when the first has lower precedence, positive exactly
   * when the second has, and 0 exactly when their parts are the same, numeric identifiers read as numbers.
   */
  lemma CompareIsPrecedence(v: Version, w: Version)
    requires WellFormed(v) && WellFormed(w)
    ensures Compare(v, w) < 0 <==> Before(v, w)
    ensures Compare(v, w) > 0 <==> Before(w, v)
    ensures Compare(v, w) == 0 <==> SameParts(v, w)
    ensures Compare(v, w) == -Compare(w, v)
  {
    CoreOrder(v, w);
    CoreOrder(w, v);
    IdsOrder(v.pre, w.pre);
    IdsOrder(w.pre, v.pre);
  }

  lemma {:induction false} TextTransitive(a: string, b: string, c: string)
    requires CompareText(a, b) <= 0 && CompareText(b, c) <= 0
    ensures CompareText(a, c) <= 0 && (CompareText(a, b) < 0 || CompareText(b, c) < 0 ==> CompareText(a, c) < 0)
    decreases |a|
  {
    if a != "" && b != "" && c != "" && a[0] == b[0] == c[0] {
      TextTransitive(a[1..], b[1..], c[1..]);
    }
  }

  lemma IdTransitive(a: string, b: string, c: string)
    requires CompareId(a, b) <= 0 && CompareId(b, c) <= 0
    ensures CompareId(a, c) <= 0 && (CompareId(a, b) < 0 || CompareId(b, c) < 0 ==> CompareId(a, c) < 0)
  {
    if !Numeric(a) && !Numeric(b) && !Numeric(c) {
      TextTransitive(a, b, c);
    }
  }

  lemma {:induction false} IdsTransitive(x: seq<string>, y: seq<string>, z: seq<string>)
    requires CompareIds(x, y) <= 0 && CompareIds(y, z) <= 0
    ensures CompareIds(x, z) <= 0 && (CompareIds(x, y) < 0 || CompareIds(y, z) < 0 ==> CompareIds(x, z) < 0)
    decreases |x|
  {
    if x != [] && y != [] && z != [] {
      IdTransitive(x[0], y[0], z[0]);
      if CompareId(x[0], y[0]) == 0 && CompareId(y[0], z[0]) == 0 {
        IdsTransitive(x[1..], y[1..], z[1..]);
      }
    }
  }

  lemma {:induction false} CoreTransitive(u: Version, v: Version, w: Version, i: nat)
    requires WellFormed(u) && WellFormed(v) && WellFormed(w) && i <= 3
    requires CompareCore(u, v, i) <= 0 && CompareCore(v, w, i) <= 0
    ensures CompareCore(u, w, i) <= 0 && (CompareCore(u, v, i) < 0 || CompareCore(v, w, i) < 0 ==> CompareCore(u, w, i) < 0)
    decreases 3 - i
  {
    if i < 3 && Number(u.core[i]) == Number(v.core[i]) == Number(w.core[i]) {
      CoreTransitive(u, v, w, i + 1);
    }
  }

  /** The order is transitive, and strictly so when either step is strict. */
  lemma CompareTransitive(u: Version, v: Version, w: Version)
    requires WellFormed(u) && WellFormed(v) && WellFormed(w)
    requires Compare(u, v) <= 0 && Compare(v, w) <= 0
    ensures Compare(u, w) <= 0 && (Compare(u, v) < 0 || Compare(v, w) < 0 ==> Compare(u, w) < 0)
  {
    CoreTransitive(u, v, w, 0);
    if u.pre != [] && v.pre != [] && w.pre != [] && CompareIds(u.pre, v.pre) <= 0 && CompareIds(v.pre, w.pre) <= 0 {
      IdsTransitive(u.pre, v.pre, w.pre);
    }
  }

  // ---- compareVersions ----

  /** `compareVersions`: None where it throws, which is exactly when one of the two isn't a version. */
  method CompareVersions(a: string, b: string) returns (r: Option<int>)
    ensures r.None? <==> !IsVersion(a) || !IsVersion(b)
    ensures r.Some? ==> r.value == Compare(Parse(a).value, Parse(b).value)
  {
    var left, right := Parse(a), Parse(b);
    if left.None? || right.None? { return None; }
    var v, w := left.value, right.value;
    var i := 0;
    while i < 3
      invariant 0 <= i <= 3 && CompareCore(v, w, 0) == CompareCore(v, w, i)
    {
      var m: int, n: int := Number(v.core[i]), Number(w.core[i]);
      if m != n { return Some(Sign(m - n)); }
      i := i + 1;
    }
    if v.pre == [] || w.pre == [] { return Some(if v.pre != [] then -1 else if w.pre != [] then 1 else 0); }
    var c := ComparePrereleases(v.pre, w.pre);
    return Some(c);
  }

  method ComparePrereleases(x: seq<string>, y: seq<string>) returns (r: int)
    ensures r == CompareIds(x, y)
  {
    var i := 0;
    while i < |x| || i < |y|
      invariant 0 <= i <= |x| && i <= |y| && CompareIds(x, y) == CompareIds(x[i..], y[i..])
      decreases |x| + |y| - i
    {
      if i == |x| || i == |y| { return if i == |x| then -1 else 1; }
      var xn, yn := Numeric(x[i]), Numeric(y[i]);
      assert x[i..][1..] == x[i + 1..] && y[i..][1..] == y[i + 1..];
      if xn && yn && Number(x[i]) != Number(y[i]) { return Sign(Number(x[i]) - Number(y[i])); }
      if xn != yn { return if xn then -1 else 1; }
      TextOrder(x[i], y[i]);
      if !xn && x[i] != y[i] { return CompareText(x[i], y[i]); }
      i := i + 1;
    }
    return 0;
  }
}
