// The two sort comparators of engine builds (src/backend/version.ts, src/backend/turboquant.ts) and the
// choice they feed. Both fall through the same keys: release rank, then build numbers if both builds
// are for Windows, then install order, version and backend name.

module BackendOrder {
  import opened Options
  import opened Text
  import opened Splitting
  import opened BackendVersions

  /** An installed or remote build; `order` is 0 when the record has none. */
  datatype Build = Build(version: string, backend: string, order: int)

  /** Which comparator: that of ggml-org releases or that of TurboQuant. */
  datatype Provider = Ggml | Turboquant

  // --- lexicographic comparison ------------------------------------------------------------------

  function Sign(n: int): int {
    if n < 0 then -1 else if n > 0 then 1 else 0
  }

  function Lex(a: seq<int>, b: seq<int>): int {
    if a == [] || b == [] then Sign(|a| - |b|)
    else if a[0] != b[0] then Sign(a[0] - b[0])
    else Lex(a[1..], b[1..])
  }

  lemma {:induction false} LexFlips(a: seq<int>, b: seq<int>)
    ensures Lex(b, a) == -Lex(a, b) && (Lex(a, b) == 0 <==> a == b)
    decreases |a|
  {
    if a != [] && b != [] {
      LexFlips(a[1..], b[1..]);
      assert a == [a[0]] + a[1..] && b == [b[0]] + b[1..];
    }
  }

  /** Three comparisons, of a with b, b with c and a with c, that agree with one order. */
  predicate Agree(ab: int, bc: int, ac: int) {
    && (ab <= 0 && bc <= 0 ==> ac <= 0 && (ab < 0 || bc < 0 ==> ac < 0))
    && (ab >= 0 && bc >= 0 ==> ac >= 0 && (ab > 0 || bc > 0 ==> ac > 0))
  }

  lemma {:induction false} LexAgrees(a: seq<int>, b: seq<int>, c: seq<int>)
    ensures Agree(Lex(a, b), Lex(b, c), Lex(a, c))
    decreases |a|
  {
    if a != [] && b != [] && c != [] {
      LexAgrees(a[1..], b[1..], c[1..]);
    }
  }

  /** Falling through from one key to the next. */
  function Then(first: int, second: int): int {
    if first != 0 then first else second
  }

  // --- the keys ----------------------------------------------------------------------------------

  function Codes(s: string): (codes: seq<int>)
    ensures |codes| == |s| && forall i :: 0 <= i < |s| ==> codes[i] == s[i] as int
  {
    seq(|s|, i requires 0 <= i < |s| => s[i] as int)
  }

  lemma CodesInjective(a: string, b: string)
    requires Codes(a) == Codes(b)
    ensures a == b
  {
    assert forall i :: 0 <= i < |a| ==> Codes(a)[i] == Codes(b)[i];
  }

  function CompareStrings(a: string, b: string): int {
    Lex(Codes(a), Codes(b))
  }

  function RankOf(p: Provider, b: Build): Option<seq<int>> {
    match p
    case Ggml => var rank := ReleaseTagRank(b.version); if rank.Some? then Some([rank.value]) else None
    case Turboquant => var rank := UnifiedReleaseRank(b.version); if rank.Some? then Some(rank.value) else None
  }

  predicate ForWindows(p: Provider, b: Build) {
    StartsWith(b.backend, "win-") || (p.Turboquant? && StartsWith(b.backend, "windows-"))
  }

  /** Newest first; a tagged build before an untagged one. */
  function ByRank(p: Provider, l: Build, r: Build): int {
    var lr, rr := RankOf(p, l), RankOf(p, r);
    if lr.Some? && rr.Some? then Lex(rr.value, lr.value) else if lr.Some? then -1 else if rr.Some? then 1 else 0
  }

  function ByNumber(p: Provider, l: Build, r: Build): int {
    if ForWindows(p, l) && ForWindows(p, r) then Sign(BuildNumber(r.version) - BuildNumber(l.version)) else 0
  }

  function ByRest(l: Build, r: Build): int {
    Then(Sign(r.order - l.order), Then(CompareStrings(r.version, l.version), CompareStrings(l.backend, r.backend)))
  }

  /** `compareBackendVersionsForSort` and `compareTurboquantBackendsForSort`. */
  function Compare(p: Provider, l: Build, r: Build): int {
    Then(ByRank(p, l, r), Then(ByNumber(p, l, r), ByRest(l, r)))
  }

  // --- antisymmetry and zero ---------------------------------------------------------------------

  lemma RestFlips(l: Build, r: Build)
    ensures ByRest(r, l) == -ByRest(l, r) && (ByRest(l, r) == 0 <==> l == r)
  {
    LexFlips(Codes(l.version), Codes(r.version));
    LexFlips(Codes(l.backend), Codes(r.backend));
    if ByRest(l, r) == 0 {
      CodesInjective(l.version, r.version);
      CodesInjective(l.backend, r.backend);
    }
  }

  lemma RankFlips(p: Provider, l: Build, r: Build)
    ensures ByRank(p, r, l) == -ByRank(p, l, r) && (ByRank(p, l, r) == 0 <==> RankOf(p, l) == RankOf(p, r))
  {
    if RankOf(p, l).Some? && RankOf(p, r).Some? {
      LexFlips(RankOf(p, l).value, RankOf(p, r).value);
    }
  }

  /** Swapping the arguments negates the answer, and only equal builds compare equal. */
  lemma CompareFlips(p: Provider, l: Build, r: Build)
    ensures Compare(p, r, l) == -Compare(p, l, r) && (Compare(p, l, r) == 0 <==> l == r)
  {
    RankFlips(p, l, r);
    RestFlips(l, r);
  }

  // --- where the Windows step stays out of the way -----------------------------------------------

  predicate Tagged(p: Provider, b: Build) {
    RankOf(p, b).Some?
  }

  /** Tags of equal rank have equal build numbers, so the Windows step never decides between them. */
  lemma EqualTagsTie(p: Provider, l: Build, r: Build)
    requires Tagged(p, l) && RankOf(p, l) == RankOf(p, r)
    ensures ByNumber(p, l, r) == 0
  {
    match p
    case Ggml =>
      TagRankIsBuildNumber(l.version);
      TagRankIsBuildNumber(r.version);
      assert [ReleaseTagRank(l.version).value] == [ReleaseTagRank(r.version).value];
      assert [ReleaseTagRank(l.version).value][0] == [ReleaseTagRank(r.version).value][0];
    case Turboquant =>
      UnifiedTagHasNoBuildNumber(l.version);
      UnifiedTagHasNoBuildNumber(r.version);
  }

  // --- transitivity, exactly ---------------------------------------------------------------------

  /**
   * Three untagged builds the comparator sends in a circle: `newer` before `older` by their Windows
   * build numbers, `older` before `other` before `newer` by the keys after that, `other` not being
   * for Windows.
   */
  predicate Circle(p: Provider, newer: Build, older: Build, other: Build) {
    && !Tagged(p, newer) && !Tagged(p, older) && !Tagged(p, other)
    && ForWindows(p, newer) && ForWindows(p, older) && !ForWindows(p, other)
    && BuildNumber(newer.version) > BuildNumber(older.version)
    && ByRest(older, other) < 0 && ByRest(other, newer) < 0
  }

  lemma CircleCircles(p: Provider, newer: Build, older: Build, other: Build)
    requires Circle(p, newer, older, other)
    ensures Compare(p, newer, older) < 0 && Compare(p, older, other) < 0 && Compare(p, other, newer) < 0
  {
  }

  lemma RestAgrees(a: Build, b: Build, c: Build)
    ensures Agree(ByRest(a, b), ByRest(b, c), ByRest(a, c))
  {
    LexAgrees(Codes(c.version), Codes(b.version), Codes(a.version));
    LexAgrees(Codes(a.backend), Codes(b.backend), Codes(c.backend));
    LexFlips(Codes(a.version), Codes(b.version));
    LexFlips(Codes(b.version), Codes(c.version));
    LexFlips(Codes(a.version), Codes(c.version));
  }

  lemma RankAgrees(p: Provider, a: Build, b: Build, c: Build)
    ensures Agree(ByRank(p, a, b), ByRank(p, b, c), ByRank(p, a, c))
  {
    if Tagged(p, a) && Tagged(p, b) && Tagged(p, c) {
      LexAgrees(RankOf(p, c).value, RankOf(p, b).value, RankOf(p, a).value);
    }
  }

  /** What is left once the ranks are equal. */
  function ByNumberAndRest(p: Provider, l: Build, r: Build): int {
    Then(ByNumber(p, l, r), ByRest(l, r))
  }

  predicate SomeCircle(p: Provider, a: Build, b: Build, c: Build) {
    || Circle(p, a, b, c) || Circle(p, b, c, a) || Circle(p, c, a, b)
    || Circle(p, a, c, b) || Circle(p, c, b, a) || Circle(p, b, a, c)
  }

  lemma UntaggedAgree(p: Provider, a: Build, b: Build, c: Build)
    requires !Tagged(p, a) && !Tagged(p, b) && !Tagged(p, c) && !SomeCircle(p, a, b, c)
    ensures Agree(ByNumberAndRest(p, a, b), ByNumberAndRest(p, b, c), ByNumberAndRest(p, a, c))
  {
    RestAgrees(a, b, c);
    RestFlips(a, b);
    RestFlips(b, c);
    RestFlips(a, c);
  }

  /** Without a circle among them, three builds are compared as one order would. */
  lemma CompareAgrees(p: Provider, a: Build, b: Build, c: Build)
    requires !SomeCircle(p, a, b, c)
    ensures Compare(p, a, b) <= 0 && Compare(p, b, c) <= 0 ==> Compare(p, a, c) <= 0
  {
    RankAgrees(p, a, b, c);
    RankFlips(p, a, b);
    RankFlips(p, b, c);
    RankFlips(p, a, c);
    if ByRank(p, a, b) == 0 && ByRank(p, b, c) == 0 {
      RestAgrees(a, b, c);
      if Tagged(p, a) {
        EqualTagsTie(p, a, b);
        EqualTagsTie(p, b, c);
        EqualTagsTie(p, a, c);
      } else {
        UntaggedAgree(p, a, b, c);
      }
    }
  }

  /** The comparator orders the builds of a list. */
  ghost predicate Orders(p: Provider, bs: seq<Build>) {
    forall a: Build, b: Build, c: Build :: a in bs && b in bs && c in bs && Compare(p, a, b) <= 0 && Compare(p, b, c) <= 0 ==>
      Compare(p, a, c) <= 0
  }

  ghost predicate HasCircle(p: Provider, bs: seq<Build>) {
    exists a: Build, b: Build, c: Build :: a in bs && b in bs && c in bs && Circle(p, a, b, c)
  }

  /** Exactly the lists without a circle are ordered. */
  lemma OrdersIffNoCircle(p: Provider, bs: seq<Build>)
    ensures Orders(p, bs) <==> !HasCircle(p, bs)
  {
    if HasCircle(p, bs) {
      var a: Build, b: Build, c: Build :| a in bs && b in bs && c in bs && Circle(p, a, b, c);
      CircleCircles(p, a, b, c);
      CompareFlips(p, c, a);
    } else {
      forall a: Build, b: Build, c: Build | a in bs && b in bs && c in bs && Compare(p, a, b) <= 0 && Compare(p, b, c) <= 0
        ensures Compare(p, a, c) <= 0
      {
        CompareAgrees(p, a, b, c);
      }
    }
  }

  /** So every list is ordered whose untagged builds are all for Windows, or all not. */
  lemma OneKindIsOrdered(p: Provider, bs: seq<Build>, windows: bool)
    requires forall b: Build :: b in bs && !Tagged(p, b) ==> ForWindows(p, b) == windows
    ensures Orders(p, bs)
  {
    OrdersIffNoCircle(p, bs);
  }

  // --- sorting -----------------------------------------------------------------------------------

  predicate Sorted(p: Provider, bs: seq<Build>) {
    forall i, j :: 0 <= i < j < |bs| ==> Compare(p, bs[i], bs[j]) <= 0
  }

  /** A list has one sorted permutation at most. */
  lemma {:induction false} SortIsUnique(p: Provider, s: seq<Build>, t: seq<Build>)
    requires Sorted(p, s) && Sorted(p, t) && multiset(s) == multiset(t)
    ensures s == t
    decreases |s|
  {
    if s == [] {
      assert |multiset(t)| == 0;
    } else {
      assert |multiset(s)| == |s| && |multiset(t)| == |t|;
      FirstIsSame(p, s, t);
      HeadTail(s);
      HeadTail(t);
      SameRest(multiset(s[1..]), multiset(t[1..]), s[0]);
      SortIsUnique(p, s[1..], t[1..]);
    }
  }

  lemma SameRest(a: multiset<Build>, b: multiset<Build>, first: Build)
    requires multiset{first} + a == multiset{first} + b
    ensures a == b
  {
    assert a == multiset{first} + a - multiset{first} && b == multiset{first} + b - multiset{first};
  }

  lemma FirstIsSame(p: Provider, s: seq<Build>, t: seq<Build>)
    requires Sorted(p, s) && Sorted(p, t) && multiset(s) == multiset(t) && s != [] && t != []
    ensures s[0] == t[0]
  {
    assert s[0] in multiset(t) && t[0] in multiset(s);
    var i :| 0 <= i < |t| && t[i] == s[0];
    var j :| 0 <= j < |s| && s[j] == t[0];
    CompareFlips(p, s[0], t[0]);
  }

  /** A build put in its place. */
  function Insert(p: Provider, b: Build, bs: seq<Build>): seq<Build> {
    if bs == [] || Compare(p, b, bs[0]) <= 0 then [b] + bs else [bs[0]] + Insert(p, b, bs[1..])
  }

  /** A sort by the comparator. */
  function Sort(p: Provider, bs: seq<Build>): seq<Build> {
    if bs == [] then [] else Insert(p, bs[0], Sort(p, bs[1..]))
  }

  lemma {:induction false} InsertKeeps(p: Provider, b: Build, bs: seq<Build>)
    ensures multiset(Insert(p, b, bs)) == multiset(bs) + multiset{b}
  {
    if bs == [] || Compare(p, b, bs[0]) <= 0 {
      Parts([b], bs);
    } else {
      var rest := Insert(p, b, bs[1..]);
      InsertKeeps(p, b, bs[1..]);
      HeadTail(bs);
      assert multiset([bs[0]] + rest) == multiset{bs[0]} + multiset(rest);
    }
  }

  lemma ConsSorted(p: Provider, b: Build, bs: seq<Build>)
    requires Sorted(p, bs) && forall j :: 0 <= j < |bs| ==> Compare(p, b, bs[j]) <= 0
    ensures Sorted(p, [b] + bs)
  {
  }

  /** One instance of the order of a list. */
  lemma Ordered(p: Provider, all: seq<Build>, a: Build, b: Build, c: Build)
    requires Orders(p, all) && a in all && b in all && c in all && Compare(p, a, b) <= 0 && Compare(p, b, c) <= 0
    ensures Compare(p, a, c) <= 0
  {
  }

  lemma {:induction false} InsertSorts(p: Provider, b: Build, bs: seq<Build>, all: seq<Build>)
    requires Sorted(p, bs) && Orders(p, all) && b in all && forall i :: 0 <= i < |bs| ==> bs[i] in all
    ensures Sorted(p, Insert(p, b, bs))
    decreases |bs|
  {
    if bs == [] {
    } else if Compare(p, b, bs[0]) <= 0 {
      forall j | 0 <= j < |bs|
        ensures Compare(p, b, bs[j]) <= 0
      {
        if j > 0 { Ordered(p, all, b, bs[0], bs[j]); }
      }
      ConsSorted(p, b, bs);
    } else {
      var tail := bs[1..];
      var rest := Insert(p, b, tail);
      InsertSorts(p, b, tail, all);
      InsertKeeps(p, b, tail);
      CompareFlips(p, b, bs[0]);
      forall j | 0 <= j < |rest|
        ensures Compare(p, bs[0], rest[j]) <= 0
      {
        InsertedFrom(tail, b, rest, j);
      }
      ConsSorted(p, bs[0], rest);
    }
  }

  lemma InsertedFrom(tail: seq<Build>, b: Build, rest: seq<Build>, j: nat)
    requires j < |rest| && multiset(rest) == multiset(tail) + multiset{b}
    ensures rest[j] == b || exists k :: 0 <= k < |tail| && tail[k] == rest[j]
  {
    assert rest[j] in multiset(rest);
    assert rest[j] != b ==> rest[j] in multiset(tail);
  }

  lemma OrdersPart(p: Provider, bs: seq<Build>)
    requires Orders(p, bs) && bs != []
    ensures Orders(p, bs[1..])
  {
    forall a: Build, b: Build, c: Build
      | a in bs[1..] && b in bs[1..] && c in bs[1..] && Compare(p, a, b) <= 0 && Compare(p, b, c) <= 0
      ensures Compare(p, a, c) <= 0
    {
      Ordered(p, bs, a, b, c);
    }
  }

  lemma {:induction false} SortKeeps(p: Provider, bs: seq<Build>)
    ensures multiset(Sort(p, bs)) == multiset(bs)
  {
    if bs != [] {
      SortKeeps(p, bs[1..]);
      InsertKeeps(p, bs[0], Sort(p, bs[1..]));
      HeadTail(bs);
    }
  }

  lemma SortedFrom(p: Provider, bs: seq<Build>, i: nat)
    requires i < |Sort(p, bs)|
    ensures Sort(p, bs)[i] in bs
  {
    SortKeeps(p, bs);
    assert Sort(p, bs)[i] in multiset(Sort(p, bs));
  }

  /** An ordered list has a sorted permutation: with `SortIsUnique`, exactly one. */
  lemma {:induction false} SortSorts(p: Provider, bs: seq<Build>)
    requires Orders(p, bs)
    ensures Sorted(p, Sort(p, bs)) && multiset(Sort(p, bs)) == multiset(bs)
  {
    SortKeeps(p, bs);
    if bs != [] {
      OrdersPart(p, bs);
      SortSorts(p, bs[1..]);
      forall i | 0 <= i < |Sort(p, bs[1..])|
        ensures Sort(p, bs[1..])[i] in bs
      {
        SortedFrom(p, bs[1..], i);
      }
      InsertSorts(p, bs[0], Sort(p, bs[1..]), bs);
    }
  }

  /** Three builds in a circle: no order of them is sorted. */
  lemma CircleExists()
    ensures Circle(Ggml, Build("2", "win-x64", 0), Build("1", "win-x64", 2), Build("x", "ubuntu-x64", 1))
    ensures !Orders(Ggml, [Build("2", "win-x64", 0), Build("1", "win-x64", 2), Build("x", "ubuntu-x64", 1)])
  {
    var newer, older, other := Build("2", "win-x64", 0), Build("1", "win-x64", 2), Build("x", "ubuntu-x64", 1);
    DigitsStay("2");
    DigitsStay("1");
    assert Decimal("2"[..0]) == 0 && Decimal("1"[..0]) == 0;
    assert "win-"[0] == 'w' && "win-x64"[..4] == "win-" && "ubuntu-x64"[0] == 'u';
    assert Circle(Ggml, newer, older, other);
    OrdersIffNoCircle(Ggml, [newer, older, other]);
  }

  // --- the choice --------------------------------------------------------------------------------

  datatype Category = Cuda13 | Cuda12 | Cuda11 | Rocm | Vulkan | CommonCpus | Avx512 | Avx2 | Avx | Noavx | Arm64 | X64

  const ENOUGH_VRAM := [Cuda13, Cuda12, Cuda11, Rocm, Vulkan, CommonCpus, Avx512, Avx2, Avx, Noavx, Arm64, X64]
  const LOW_VRAM := [Cuda13, Cuda12, Cuda11, CommonCpus, Avx512, Avx2, Avx, Noavx, Arm64, X64, Rocm, Vulkan]

  predicate Includes(s: string, part: string) {
    IndexOf(s, part).Some?
  }

  predicate EndsWith(s: string, part: string) {
    |part| <= |s| && s[|s| - |part|..] == part
  }

  /** `getTurboquantBackendCategory` */
  function CategoryOf(backend: string): Option<Category> {
    if Includes(backend, "cuda-13") || Includes(backend, "cu13.0") then Some(Cuda13)
    else if Includes(backend, "cuda-12") || Includes(backend, "cu12.0") then Some(Cuda12)
    else if Includes(backend, "cuda-11") || Includes(backend, "cu11.7") then Some(Cuda11)
    else if Includes(backend, "rocm") then Some(Rocm)
    else if Includes(backend, "vulkan") then Some(Vulkan)
    else if Includes(backend, "common_cpus") || Includes(backend, "-cpu") then Some(CommonCpus)
    else if Includes(backend, "avx512") then Some(Avx512)
    else if Includes(backend, "avx2") then Some(Avx2)
    else if Includes(backend, "avx") && !Includes(backend, "avx2") && !Includes(backend, "avx512") then Some(Avx)
    else if Includes(backend, "noavx") then Some(Noavx)
    else if EndsWith(backend, "arm64") then Some(Arm64)
    else if EndsWith(backend, "x64") then Some(X64)
    else None
  }

  /** A name with `noavx` in it has `avx` in it: the category of its own is never reached. */
  lemma NoavxIsNeverReached(backend: string)
    ensures CategoryOf(backend) != Some(Noavx)
  {
    if Includes(backend, "noavx") {
      IndexOfIs(backend, "noavx");
      var i := IndexOf(backend, "noavx").value;
      assert "noavx"[2..] == "avx";
      assert backend[i..i + 5][2..] == backend[i + 2..i + 5];
      assert SepAt(backend, "avx", i + 2);
      IndexOfIs(backend, "avx");
    }
  }

  function Matching(bs: seq<Build>, c: Category): (ms: seq<Build>)
    ensures forall b: Build :: b in ms <==> b in bs && CategoryOf(b.backend) == Some(c)
  {
    if bs == [] then []
    else
      assert forall b: Build :: b in bs <==> b == bs[0] || b in bs[1..];
      (if CategoryOf(bs[0].backend) == Some(c) then [bs[0]] else []) + Matching(bs[1..], c)
  }

  predicate FirstPresent(order: seq<Category>, bs: seq<Build>, i: nat) {
    i < |order| && Matching(bs, order[i]) != [] && forall j :: 0 <= j < i ==> Matching(bs, order[j]) == []
  }

  /** The newest build of the first category present; the first build when no category is. */
  ghost predicate IsChoice(order: seq<Category>, bs: seq<Build>, best: Build) {
    && best in bs
    && (forall i: nat :: FirstPresent(order, bs, i) ==>
          && CategoryOf(best.backend) == Some(order[i])
          && (Orders(Turboquant, Matching(bs, order[i])) ==>
                forall b: Build :: b in bs && CategoryOf(b.backend) == Some(order[i]) ==> Compare(Turboquant, best, b) <= 0))
    && ((forall i: nat :: !FirstPresent(order, bs, i)) ==> best == bs[0])
  }

  lemma NewestOf(bs: seq<Build>, c: Category, sorted: seq<Build>)
    requires Matching(bs, c) != [] && multiset(sorted) == multiset(Matching(bs, c))
    ensures sorted != [] && sorted[0] in bs && CategoryOf(sorted[0].backend) == Some(c)
    ensures Sorted(Turboquant, sorted) ==>
      forall b: Build :: b in bs && CategoryOf(b.backend) == Some(c) ==> Compare(Turboquant, sorted[0], b) <= 0
  {
    var ms := Matching(bs, c);
    assert |multiset(ms)| == |ms| && |multiset(sorted)| == |sorted|;
    assert sorted[0] in multiset(ms);
    if Sorted(Turboquant, sorted) {
      forall b: Build | b in bs && CategoryOf(b.backend) == Some(c)
        ensures Compare(Turboquant, sorted[0], b) <= 0
      {
        assert b in multiset(sorted);
        CompareFlips(Turboquant, b, b);
        var i :| 0 <= i < |sorted| && sorted[i] == b;
      }
    }
  }

  lemma ChoiceFrom(order: seq<Category>, bs: seq<Build>, i: nat, sorted: seq<Build>)
    requires FirstPresent(order, bs, i) && multiset(sorted) == multiset(Matching(bs, order[i]))
    requires Orders(Turboquant, Matching(bs, order[i])) ==> Sorted(Turboquant, sorted)
    ensures sorted != [] && IsChoice(order, bs, sorted[0])
  {
    NewestOf(bs, order[i], sorted);
    assert forall k: nat :: FirstPresent(order, bs, k) ==> k == i;
  }

  lemma FallBack(order: seq<Category>, bs: seq<Build>)
    requires bs != [] && forall j :: 0 <= j < |order| ==> Matching(bs, order[j]) == []
    ensures IsChoice(order, bs, bs[0])
  {
    assert forall k: nat :: !FirstPresent(order, bs, k);
  }

  /** On an ordered list the runtime's sort can only give what `Sort` gives. */
  lemma SortedMatching(bs: seq<Build>, c: Category)
    ensures var ms := Matching(bs, c);
      multiset(Sort(Turboquant, ms)) == multiset(ms) && (Orders(Turboquant, ms) ==> Sorted(Turboquant, Sort(Turboquant, ms)))
  {
    var ms := Matching(bs, c);
    SortKeeps(Turboquant, ms);
    if Orders(Turboquant, ms) {
      SortSorts(Turboquant, ms);
    }
  }

  lemma NewestIsChoice(order: seq<Category>, bs: seq<Build>, i: nat)
    requires FirstPresent(order, bs, i)
    ensures var sorted := Sort(Turboquant, Matching(bs, order[i])); sorted != [] && IsChoice(order, bs, sorted[0])
  {
    SortedMatching(bs, order[i]);
    ChoiceFrom(order, bs, i, Sort(Turboquant, Matching(bs, order[i])));
  }

  /** The loop over the categories. */
  method ChooseBy(order: seq<Category>, bs: seq<Build>) returns (best: Build)
    requires bs != []
    ensures IsChoice(order, bs, best)
  {
    for i := 0 to |order|
      invariant forall j :: 0 <= j < i ==> Matching(bs, order[j]) == []
    {
      var matching := Matching(bs, order[i]);
      if matching != [] {
        NewestIsChoice(order, bs, i);
        return Sort(Turboquant, matching)[0];
      }
    }
    FallBack(order, bs);
    best := bs[0];
  }

  /** `prioritizeTurboquantBackends` */
  method Prioritize(bs: seq<Build>, enoughMemory: bool) returns (r: Result<Build, string>)
    ensures r.Err? <==> bs == []
    ensures r.Ok? ==> IsChoice(if enoughMemory then ENOUGH_VRAM else LOW_VRAM, bs, r.value)
  {
    if bs == [] {
      return Err("No backends available");
    }
    var best := ChooseBy(if enoughMemory then ENOUGH_VRAM else LOW_VRAM, bs);
    r := Ok(best);
  }
}
