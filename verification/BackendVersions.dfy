// Version strings of engine builds (src/backend/version.ts, src/backend/turboquant.ts): the numbers read
// out of them and the dotted-numeric comparison.

module BackendVersions {
  import opened Options
  import opened Text
  import opened Splitting

  const MAX_U32 := 4294967295

  predicate IsDigit(c: char) {
    '0' <= c <= '9'
  }

  predicate AllDigits(s: string) {
    s != [] && forall i :: 0 <= i < |s| ==> IsDigit(s[i])
  }

  function Digit(c: char): nat
    requires IsDigit(c)
  {
    c as int - '0' as int
  }

  function Decimal(s: string): nat
    requires forall i :: 0 <= i < |s| ==> IsDigit(s[i])
  {
    if s == [] then 0 else 10 * Decimal(s[..|s| - 1]) + Digit(s[|s| - 1])
  }

  /** `parseRustU32`: an optional `+`, digits, at most 2^32 - 1. */
  function ParseU32(s: string): Option<nat> {
    var digits := if s != [] && s[0] == '+' then s[1..] else s;
    if AllDigits(digits) && Decimal(digits) <= MAX_U32 then Some(Decimal(digits)) else None
  }

  function NumberOr0(s: string): nat {
    var n := ParseU32(s);
    if n.Some? then n.value else 0
  }

  function DropNonDigits(s: string): string {
    if s != [] && !IsDigit(s[0]) then DropNonDigits(s[1..]) else s
  }

  /** `parseBackendVersion` */
  function BuildNumber(version: string): nat {
    NumberOr0(DropNonDigits(version))
  }

  /** `releaseTagRank` */
  function ReleaseTagRank(version: string): Option<nat> {
    if version == [] || version[0] != 'b' then None else ParseU32(version[1..])
  }

  /** `s.split(sep)` */
  function Pieces(s: string, sep: string): seq<string>
    requires sep != []
  {
    Frames(s, sep) + [Rest(s, sep)]
  }

  /** `unifiedReleaseRank`: build, major, minor, patch. */
  function UnifiedReleaseRank(version: string): Option<seq<nat>> {
    var dash := IndexOf(version, "-");
    if version == [] || version[0] != 'b' || dash.None? || dash.value == 0 then None
    else
      var build, parts := ParseU32(version[1..dash.value]), Pieces(version[dash.value + 1..], ".");
      if |parts| != 3 || build.None? then None
      else
        var major, minor, patch := ParseU32(parts[0]), ParseU32(parts[1]), ParseU32(parts[2]);
        if major.None? || minor.None? || patch.None? then None
        else Some([build.value, major.value, minor.value, patch.value])
  }

  // --- what a tag says of its build number -------------------------------------------------------

  lemma DigitsStay(s: string)
    requires AllDigits(s)
    ensures DropNonDigits(s) == s && ParseU32(s) == if Decimal(s) <= MAX_U32 then Some(Decimal(s)) else None
  {
    assert IsDigit(s[0]);
  }

  lemma DropPlus(s: string)
    requires ParseU32(s).Some?
    ensures var digits := if s[0] == '+' then s[1..] else s; AllDigits(digits) && DropNonDigits(s) == digits
  {
    if s[0] == '+' {
      DigitsStay(s[1..]);
    } else {
      DigitsStay(s);
    }
  }

  /** A release tag's rank is its build number, so equal ranks have equal build numbers. */
  lemma TagRankIsBuildNumber(version: string)
    requires ReleaseTagRank(version).Some?
    ensures BuildNumber(version) == ReleaseTagRank(version).value
  {
    var s := version[1..];
    DropPlus(s);
    var digits := if s[0] == '+' then s[1..] else s;
    assert DropNonDigits(version) == DropNonDigits(s) == digits;
    DigitsStay(digits);
  }

  lemma {:induction false} DropAppend(s: string, t: string)
    requires exists i :: 0 <= i < |s| && IsDigit(s[i])
    ensures DropNonDigits(s + t) == DropNonDigits(s) + t
    decreases |s|
  {
    if IsDigit(s[0]) {
      assert (s + t)[0] == s[0];
    } else {
      assert (s + t)[1..] == s[1..] + t;
      var i :| 0 <= i < |s| && IsDigit(s[i]);
      assert IsDigit(s[1..][i - 1]);
      DropAppend(s[1..], t);
    }
  }

  lemma DashIsNoNumber(s: string, t: string)
    requires AllDigits(s)
    ensures ParseU32(s + (['-'] + t)).None?
  {
    var u := s + (['-'] + t);
    assert IsDigit(s[0]) && u[0] == s[0];
    assert u[|s|] == '-';
  }

  lemma NumberThenDash(build: string, after: string)
    requires ParseU32(build).Some?
    ensures NumberOr0(DropNonDigits(build + (['-'] + after))) == 0
  {
    DropPlus(build);
    var digits := if build[0] == '+' then build[1..] else build;
    assert IsDigit(digits[0]) && digits[0] == build[|build| - |digits|];
    DropAppend(build, ['-'] + after);
    DashIsNoNumber(digits, after);
  }

  lemma AroundDash(v: string, dash: nat)
    requires 0 < dash && SepAt(v, "-", dash)
    ensures v[1..] == v[1..dash] + (['-'] + v[dash + 1..])
  {
    assert v[dash..dash + 1][0] == v[dash];
  }

  /** A unified tag has no build number: what follows its digits is not one. */
  lemma UnifiedTagHasNoBuildNumber(version: string)
    requires UnifiedReleaseRank(version).Some?
    ensures BuildNumber(version) == 0
  {
    var dash := IndexOf(version, "-").value;
    IndexOfIs(version, "-");
    AroundDash(version, dash);
    NumberThenDash(version[1..dash], version[dash + 1..]);
    assert DropNonDigits(version) == DropNonDigits(version[1..]);
  }

  // --- compareVersions ---------------------------------------------------------------------------

  /** The `i`-th component; one that is missing or is no number counts as 0. */
  function Component(parts: seq<string>, i: nat): nat {
    if i < |parts| then NumberOr0(parts[i]) else 0
  }

  /** Two versions agree below component `i`. */
  predicate AgreeBelow(a: seq<string>, b: seq<string>, i: nat) {
    forall j: nat :: j < i ==> Component(a, j) == Component(b, j)
  }

  /** The component that decides. */
  ghost predicate DecidedAt(a: seq<string>, b: seq<string>, i: nat, r: int) {
    AgreeBelow(a, b, i) && Component(a, i) != Component(b, i) && r == if Component(a, i) < Component(b, i) then -1 else 1
  }

  /** The first component they differ in decides. */
  ghost predicate ComparesAs(a: seq<string>, b: seq<string>, r: int) {
    if r == 0 then forall j: nat :: Component(a, j) == Component(b, j)
    else
      exists i: nat :: DecidedAt(a, b, i, r)
  }

  method CompareVersions(v1: string, v2: string) returns (r: int)
    ensures ComparesAs(Pieces(v1, "."), Pieces(v2, "."), r)
  {
    var parts1, parts2 := Pieces(v1, "."), Pieces(v2, ".");
    var max := if |parts1| < |parts2| then |parts2| else |parts1|;
    for i := 0 to max
      invariant AgreeBelow(parts1, parts2, i)
    {
      var n1, n2 := Component(parts1, i), Component(parts2, i);
      if n1 < n2 {
        assert DecidedAt(parts1, parts2, i, -1);
        return -1;
      }
      if n1 > n2 {
        assert DecidedAt(parts1, parts2, i, 1);
        return 1;
      }
    }
    r := 0;
  }

  /** The comparison is a function of the versions, antisymmetric and transitive. */
  lemma ComparisonIsOrder(a: seq<string>, b: seq<string>, c: seq<string>, ab: int, ba: int, bc: int, ac: int)
    requires ComparesAs(a, b, ab) && ComparesAs(b, a, ba) && ComparesAs(b, c, bc) && ComparesAs(a, c, ac)
    ensures ba == -ab && (ab <= 0 && bc <= 0 ==> ac <= 0) && (ab <= 0 && bc <= 0 && ac == 0 ==> ab == 0 && bc == 0)
  {
    ComparisonFlips(a, b, ab, ba);
    if ab <= 0 && bc <= 0 {
      ComparisonChains(a, b, c, ab, bc, ac);
    }
  }

  lemma ComparisonFlips(a: seq<string>, b: seq<string>, ab: int, ba: int)
    requires ComparesAs(a, b, ab) && ComparesAs(b, a, ba)
    ensures ba == -ab
  {
    if ab != 0 && ba != 0 {
      var i: nat :| DecidedAt(a, b, i, ab);
      var j: nat :| DecidedAt(b, a, j, ba);
      assert i == j;
    }
  }

  lemma BothDecided(a: seq<string>, b: seq<string>, c: seq<string>, i: nat, j: nat, ac: int)
    requires DecidedAt(a, b, i, -1) && DecidedAt(b, c, j, -1) && ComparesAs(a, c, ac)
    ensures ac == -1
  {
    Decides(a, c, if i < j then i else j, -1, ac);
  }

  lemma ComparisonChains(a: seq<string>, b: seq<string>, c: seq<string>, ab: int, bc: int, ac: int)
    requires ComparesAs(a, b, ab) && ComparesAs(b, c, bc) && ComparesAs(a, c, ac) && ab <= 0 && bc <= 0
    ensures ac <= 0 && (ac == 0 ==> ab == 0 && bc == 0)
  {
    if ab == 0 && bc != 0 {
      var j: nat :| DecidedAt(b, c, j, bc);
      Decides(a, c, j, -1, ac);
    } else if ab != 0 && bc == 0 {
      var i: nat :| DecidedAt(a, b, i, ab);
      Decides(a, c, i, -1, ac);
    } else if ab != 0 {
      var i: nat :| DecidedAt(a, b, i, ab);
      var j: nat :| DecidedAt(b, c, j, bc);
      BothDecided(a, b, c, i, j, ac);
    }
  }

  lemma Decides(a: seq<string>, c: seq<string>, i: nat, r: int, ac: int)
    requires ComparesAs(a, c, ac) && DecidedAt(a, c, i, r)
    ensures ac == r
  {
    if ac != 0 {
      var k: nat :| DecidedAt(a, c, k, ac);
      assert i == k;
    }
  }
}
