// The order in which installed engine builds are tried (src/decision/engine-candidates.ts): two comparators
// that fall through several keys and end in `localeCompare`, which is a parameter here.

module EngineCandidates {
  import opened Options
  import opened Text
  import opened Splitting
  import opened BackendVersions
  import opened BackendOrder
  import DecisionEngine

  datatype Pack = Pack(version: string, backend: string, path: string)

  /** `String.prototype.localeCompare`. */
  type Locale = (string, string) -> int

  /** What a collation is: one order of the strings, in which different ones may be equal. */
  ghost predicate Collates(locale: Locale) {
    && (forall a: string, b: string :: (locale(a, b) < 0 <==> locale(b, a) > 0) && (a == b ==> locale(a, b) == 0))
    && (forall a: string, b: string, c: string :: Agree(locale(a, b), locale(b, c), locale(a, c)))
  }

  type Comparator = (Pack, Pack) -> int

  /** The comparator orders the packs of a list: what it says of three of them is never at odds. */
  ghost predicate OrdersPacks(compare: Comparator, ps: seq<Pack>) {
    forall a: Pack, b: Pack, c: Pack :: a in ps && b in ps && c in ps ==> Agree(compare(a, b), compare(b, c), compare(a, c))
  }

  /** A key that decides leaves the rest to the next one only where it ties. */
  lemma ThenAgrees(ab: int, bc: int, ac: int, ab': int, bc': int, ac': int)
    requires Agree(ab, bc, ac) && (ab == 0 && bc == 0 && ac == 0 ==> Agree(ab', bc', ac'))
    ensures Agree(Then(ab, ab'), Then(bc, bc'), Then(ac, ac'))
  {
  }

  // --- keys --------------------------------------------------------------------------------------

  function LowerAll(s: string): string {
    seq(|s|, i requires 0 <= i < |s| => Lower(s[i]))
  }

  function DigitsPrefix(s: string): (n: nat)
    ensures n <= |s| && forall i :: 0 <= i < n ==> IsDigit(s[i])
  {
    if s != [] && IsDigit(s[0]) then 1 + DigitsPrefix(s[1..]) else 0
  }

  /** `buildOf` */
  function BuildOf(version: string): nat {
    var v := Trim(version);
    if v == [] || v[0] != 'b' then 0 else Decimal(v[1..][..DigitsPrefix(v[1..])])
  }

  /** `backendPreference` */
  function Preference(backend: string): nat {
    var id := LowerAll(backend);
    if Includes(id, "cpu") then 0 else if StartsWith(id, "macos") then 1 else if Includes(id, "vulkan") then 2 else 3
  }

  const MAX_SAFE := 9007199254740991

  function PlainSemver(v: string): Option<seq<nat>> {
    var parts := Pieces(if v != [] && v[0] == 'v' then v[1..] else v, ".");
    if |parts| != 3 || !AllDigits(parts[0]) || !AllDigits(parts[1]) || !AllDigits(parts[2]) then None
    else
      var ns := [Decimal(parts[0]), Decimal(parts[1]), Decimal(parts[2])];
      if ns[0] <= MAX_SAFE && ns[1] <= MAX_SAFE && ns[2] <= MAX_SAFE then Some(ns) else None
  }

  /** `parseForkSemver` */
  function ForkSemver(version: string): Option<seq<nat>> {
    var v := Trim(version);
    var rank := UnifiedReleaseRank(v);
    if rank.Some? && |rank.value| == 4 then Some(rank.value[1..]) else PlainSemver(v)
  }

  const MIN_FORK_VERSION: seq<nat> := [1, 7, 0]

  /** `gateRank` of `meetsForkVersion`: new enough, no telling, too old. */
  function GateRank(version: string): nat {
    var have := ForkSemver(version);
    if have.None? then 1 else if Lex(have.value, MIN_FORK_VERSION) >= 0 then 0 else 2
  }

  // --- TurboQuant builds -------------------------------------------------------------------------

  /** Everything before the strings. */
  function ForkKeys(a: Pack, b: Pack): int {
    Then(GateRank(a.version) - GateRank(b.version),
         Then(BuildOf(b.version) - BuildOf(a.version), Preference(a.backend) - Preference(b.backend)))
  }

  function ForkStrings(locale: Locale, a: Pack, b: Pack): int {
    if a.version == b.version then locale(a.backend, b.backend) else locale(b.version, a.version)
  }

  /** The comparator of `orderEngineCandidates`. */
  function CompareFork(locale: Locale): Comparator {
    (a, b) => Then(ForkKeys(a, b), ForkStrings(locale, a, b))
  }

  /**
   * Two builds of one version that differ in backend, and one of another version the collation takes for
   * the same: it ties with both, and they do not tie.
   */
  predicate Clash(locale: Locale, a: Pack, b: Pack, c: Pack) {
    && ForkKeys(a, b) == 0 && ForkKeys(b, c) == 0 && ForkKeys(a, c) == 0
    && a.version == c.version && a.version != b.version
    && locale(b.version, a.version) == 0 && locale(a.backend, c.backend) != 0
  }

  lemma ForkKeysAgree(a: Pack, b: Pack, c: Pack)
    ensures Agree(ForkKeys(a, b), ForkKeys(b, c), ForkKeys(a, c))
  {
    var build := (x: Pack, y: Pack) => BuildOf(y.version) - BuildOf(x.version);
    var pref := (x: Pack, y: Pack) => Preference(x.backend) - Preference(y.backend);
    ThenAgrees(build(a, b), build(b, c), build(a, c), pref(a, b), pref(b, c), pref(a, c));
    ThenAgrees(GateRank(a.version) - GateRank(b.version), GateRank(b.version) - GateRank(c.version),
               GateRank(a.version) - GateRank(c.version), Then(build(a, b), pref(a, b)), Then(build(b, c), pref(b, c)),
               Then(build(a, c), pref(a, c)));
  }

  lemma ForkStringsAgree(locale: Locale, a: Pack, b: Pack, c: Pack)
    requires Collates(locale) && ForkKeys(a, b) == 0 && ForkKeys(b, c) == 0 && ForkKeys(a, c) == 0
    requires !Clash(locale, a, b, c) && !Clash(locale, a, c, b) && !Clash(locale, b, a, c)
    ensures Agree(ForkStrings(locale, a, b), ForkStrings(locale, b, c), ForkStrings(locale, a, c))
  {
    assert Agree(locale(a.backend, b.backend), locale(b.backend, c.backend), locale(a.backend, c.backend));
    assert Agree(locale(c.version, b.version), locale(b.version, a.version), locale(c.version, a.version));
  }

  lemma KeysFlip(a: Pack, b: Pack)
    ensures ForkKeys(b, a) == -ForkKeys(a, b)
  {
  }

  lemma ForkAgrees(locale: Locale, a: Pack, b: Pack, c: Pack)
    requires Collates(locale) && !Clash(locale, a, b, c) && !Clash(locale, a, c, b) && !Clash(locale, b, a, c)
    ensures var cmp := CompareFork(locale); Agree(cmp(a, b), cmp(b, c), cmp(a, c))
  {
    ForkKeysAgree(a, b, c);
    if ForkKeys(a, b) == 0 && ForkKeys(b, c) == 0 && ForkKeys(a, c) == 0 {
      ForkStringsAgree(locale, a, b, c);
    }
    ThenAgrees(ForkKeys(a, b), ForkKeys(b, c), ForkKeys(a, c),
               ForkStrings(locale, a, b), ForkStrings(locale, b, c), ForkStrings(locale, a, c));
  }

  ghost predicate HasClash(locale: Locale, ps: seq<Pack>) {
    exists a: Pack, b: Pack, c: Pack :: a in ps && b in ps && c in ps && Clash(locale, a, b, c)
  }

  /** The comparator orders exactly the lists without a clash. */
  lemma ForkOrdersIffNoClash(locale: Locale, ps: seq<Pack>)
    requires Collates(locale)
    ensures OrdersPacks(CompareFork(locale), ps) <==> !HasClash(locale, ps)
  {
    var cmp := CompareFork(locale);
    if HasClash(locale, ps) {
      var a: Pack, b: Pack, c: Pack :| a in ps && b in ps && c in ps && Clash(locale, a, b, c);
      ClashIsAtOdds(locale, a, b, c);
    } else {
      forall a: Pack, b: Pack, c: Pack | a in ps && b in ps && c in ps
        ensures Agree(cmp(a, b), cmp(b, c), cmp(a, c))
      {
        ForkAgrees(locale, a, b, c);
      }
    }
  }

  lemma ClashIsAtOdds(locale: Locale, a: Pack, b: Pack, c: Pack)
    requires Collates(locale) && Clash(locale, a, b, c)
    ensures var cmp := CompareFork(locale); !Agree(cmp(a, b), cmp(b, c), cmp(a, c))
  {
    assert locale(a.version, b.version) < 0 <==> locale(b.version, a.version) > 0;
    assert locale(b.version, a.version) < 0 <==> locale(a.version, b.version) > 0;
  }

  lemma OneLetterVersion(c: char)
    requires !IsSpace(c) && c != 'b' && c != 'v' && c != '.' && !IsDigit(c)
    ensures GateRank([c]) == 1 && BuildOf([c]) == 0
  {
    assert TrimStart([c]) == [c] && TrimEnd([c]) == [c];
    IndexOfIs([c], ".");
    assert [c][0..1] == [c] && [c][0] != "."[0];
    assert Pieces([c], ".") == [[c]];
  }

  /** The collation that goes by length. */
  function ByLength(): Locale {
    (a, b) => |a| - |b|
  }

  lemma ByLengthCollates()
    ensures Collates(ByLength())
  {
  }

  /** It takes versions of one letter for the same, and two backends of one of them clash around another. */
  lemma ClashExists()
    ensures Collates(ByLength()) && Clash(ByLength(), Pack("x", "m", ""), Pack("y", "m", ""), Pack("x", "mm", ""))
  {
    ByLengthCollates();
    OneLetterVersion('x');
    OneLetterVersion('y');
    assert "x" == ['x'] && "y" == ['y'];
    PlainBackend("m");
    PlainBackend("mm");
    ClashByLength(Pack("x", "m", ""), Pack("y", "m", ""), Pack("x", "mm", ""));
  }

  lemma ClashByLength(a: Pack, b: Pack, c: Pack)
    requires ForkKeys(a, b) == 0 && ForkKeys(b, c) == 0 && ForkKeys(a, c) == 0
    requires a.version == c.version && a.version != b.version && |a.version| == |b.version| && |a.backend| != |c.backend|
    ensures Clash(ByLength(), a, b, c)
  {
  }

  /** A short name has none of the marks. */
  lemma PlainBackend(backend: string)
    requires |backend| < 3
    ensures Preference(backend) == 3
  {
    assert |LowerAll(backend)| == |backend| && |"cpu"| == 3 && |"macos"| == 5 && |"vulkan"| == 6;
  }

  /** So every list is ordered in which the collation tells versions apart. */
  lemma DistinctVersionsAreOrdered(locale: Locale, ps: seq<Pack>)
    requires Collates(locale)
    requires forall a: Pack, b: Pack :: a in ps && b in ps && locale(b.version, a.version) == 0 ==> a.version == b.version
    ensures OrdersPacks(CompareFork(locale), ps)
  {
    ForkOrdersIffNoClash(locale, ps);
  }

  // --- upstream builds ---------------------------------------------------------------------------

  function UpstreamBuild(version: string): nat {
    var rank := ReleaseTagRank(Trim(version));
    if rank.Some? then rank.value else 0
  }

  predicate MeetsFloor(minBuild: nat, p: Pack) {
    var rank := ReleaseTagRank(Trim(p.version));
    rank.Some? && rank.value >= minBuild
  }

  /** `upstreamBackendPreference` */
  function UpstreamPreference(backend: string): nat {
    var id := LowerAll(backend);
    if StartsWith(id, "macos") then 0
    else if Includes(id, "cuda") then 1
    else if Includes(id, "rocm") || Includes(id, "hip") then 2
    else if Includes(id, "vulkan") then 3
    else if Includes(id, "sycl") || Includes(id, "openvino") || Includes(id, "opencl") then 4
    else 5
  }

  function VersionBackend(p: Pack): string {
    p.version + "/" + p.backend
  }

  /** The build the user picked. */
  predicate IsPicked(picked: string, p: Pack) {
    picked != "" && VersionBackend(p) == picked
  }

  /** A build for the backend the user picked. */
  predicate IsSameKind(picked: string, p: Pack) {
    var slash := IndexOf(picked, "/");
    slash.Some? && p.backend == picked[slash.value + 1..]
  }

  function Rank(hit: bool): nat {
    if hit then 0 else 1
  }

  /** The keys of a build, most important first: less is tried first. */
  function UpstreamKey(picked: string, p: Pack): seq<int> {
    [Rank(IsPicked(picked, p)), 0 - UpstreamBuild(p.version), Rank(IsSameKind(picked, p)), UpstreamPreference(p.backend)]
  }

  /** The comparator of `orderUpstreamCandidates`. */
  function CompareUpstream(locale: Locale, picked: string): Comparator {
    (a, b) => UpstreamDiff(locale, picked, a, b)
  }

  function UpstreamDiff(locale: Locale, picked: string, a: Pack, b: Pack): int {
    Then(Rank(IsPicked(picked, a)) - Rank(IsPicked(picked, b)),
         Then(UpstreamBuild(b.version) - UpstreamBuild(a.version),
              Then(Rank(IsSameKind(picked, a)) - Rank(IsSameKind(picked, b)),
                   Then(UpstreamPreference(a.backend) - UpstreamPreference(b.backend), locale(a.backend, b.backend)))))
  }

  /** Falling through the keys one by one is comparing them in order of importance. */
  lemma UpstreamIsLexicographic(locale: Locale, picked: string, a: Pack, b: Pack)
    ensures var d, k := CompareUpstream(locale, picked)(a, b), Lex(UpstreamKey(picked, a), UpstreamKey(picked, b));
      Sign(d) == Then(k, Sign(locale(a.backend, b.backend)))
  {
    var x, y := UpstreamKey(picked, a), UpstreamKey(picked, b);
    LexUnfold(x, y);
    LexUnfold(x[1..], y[1..]);
    LexUnfold(x[1..][1..], y[1..][1..]);
    LexUnfold(x[1..][1..][1..], y[1..][1..][1..]);
  }

  lemma LexUnfold(x: seq<int>, y: seq<int>)
    requires x != [] && |x| == |y|
    ensures Lex(x, y) == if x[0] != y[0] then Sign(x[0] - y[0]) else Lex(x[1..], y[1..])
  {
  }

  /** The upstream comparator orders every list. */
  lemma UpstreamOrders(locale: Locale, picked: string, ps: seq<Pack>)
    requires Collates(locale)
    ensures OrdersPacks(CompareUpstream(locale, picked), ps)
  {
    var cmp := CompareUpstream(locale, picked);
    forall a: Pack, b: Pack, c: Pack | a in ps && b in ps && c in ps
      ensures Agree(cmp(a, b), cmp(b, c), cmp(a, c))
    {
      UpstreamIsLexicographic(locale, picked, a, b);
      UpstreamIsLexicographic(locale, picked, b, c);
      UpstreamIsLexicographic(locale, picked, a, c);
      LexAgrees(UpstreamKey(picked, a), UpstreamKey(picked, b), UpstreamKey(picked, c));
      assert Agree(locale(a.backend, b.backend), locale(b.backend, c.backend), locale(a.backend, c.backend));
    }
  }

  // --- what is tried first -----------------------------------------------------------------------

  predicate SortedBy(compare: Comparator, ps: seq<Pack>) {
    forall i, j :: 0 <= i < j < |ps| ==> compare(ps[i], ps[j]) <= 0
  }

  /** The builds that meet the floor, or that do not, in the order of the list. */
  function Floored(minBuild: nat, meets: bool, ps: seq<Pack>): seq<Pack> {
    if ps == [] then []
    else
      var p := ps[|ps| - 1];
      Floored(minBuild, meets, ps[..|ps| - 1]) + (if MeetsFloor(minBuild, p) == meets then [p] else [])
  }

  function Eligible(minBuild: nat, ps: seq<Pack>): seq<Pack> {
    Floored(minBuild, true, ps)
  }

  /** The picked build comes before any other; then a newer one; then, of one release, one of the picked kind. */
  predicate NotAfter(picked: string, first: Pack, p: Pack) {
    && (IsPicked(picked, p) ==> IsPicked(picked, first))
    && (!IsPicked(picked, first) ==>
          && UpstreamBuild(p.version) <= UpstreamBuild(first.version)
          && (UpstreamBuild(p.version) == UpstreamBuild(first.version) && IsSameKind(picked, p) ==> IsSameKind(picked, first)))
  }

  /** The eligible build before which no other is to be tried. */
  predicate TriedFirst(picked: string, minBuild: nat, ps: seq<Pack>, first: Pack) {
    && first in ps && MeetsFloor(minBuild, first)
    && forall p: Pack :: p in ps && MeetsFloor(minBuild, p) ==> NotAfter(picked, first, p)
  }

  lemma ComparedIsNotAfter(locale: Locale, picked: string, first: Pack, p: Pack)
    requires UpstreamDiff(locale, picked, first, p) <= 0
    ensures NotAfter(picked, first, p)
  {
    var picks := Rank(IsPicked(picked, first)) - Rank(IsPicked(picked, p));
    assert picks <= 0;
    if picks == 0 {
      assert UpstreamBuild(p.version) - UpstreamBuild(first.version) <= 0;
    }
  }

  /** The head of a sorted list is not after any of it. */
  lemma HeadIsLeast(compare: Comparator, sorted: seq<Pack>, p: Pack)
    requires SortedBy(compare, sorted) && p in sorted && compare(sorted[0], sorted[0]) == 0
    ensures compare(sorted[0], p) <= 0
  {
    var i :| 0 <= i < |sorted| && sorted[i] == p;
  }

  lemma {:induction false} FlooredIs(minBuild: nat, meets: bool, ps: seq<Pack>, p: Pack)
    ensures p in Floored(minBuild, meets, ps) <==> p in ps && MeetsFloor(minBuild, p) == meets
  {
    if ps != [] {
      FlooredIs(minBuild, meets, ps[..|ps| - 1], p);
      InitLast(ps);
    }
  }

  /** Each pack is in exactly one of the two lists, as often as it was there. */
  lemma {:induction false} FlooredSplits(minBuild: nat, ps: seq<Pack>)
    ensures multiset(Floored(minBuild, true, ps)) + multiset(Floored(minBuild, false, ps)) == multiset(ps)
  {
    if ps != [] {
      var init, p := ps[..|ps| - 1], ps[|ps| - 1];
      FlooredSplits(minBuild, init);
      InitLast(ps);
      assert multiset(ps) == multiset(init) + multiset{p};
    }
  }

  lemma FlooredMore(minBuild: nat, meets: bool, ps: seq<Pack>, i: nat)
    requires i < |ps|
    ensures Floored(minBuild, meets, ps[..i + 1])
         == Floored(minBuild, meets, ps[..i]) + (if MeetsFloor(minBuild, ps[i]) == meets then [ps[i]] else [])
  {
    assert ps[..i + 1] == ps[..i] + [ps[i]];
    Parts(ps[..i], [ps[i]]);
  }

  /**
   * Of any sorted list of the eligible builds the first is the one the user picked, if that is eligible;
   * otherwise one of the newest, and of the picked kind if one of those is.
   */
  lemma PickedIsFirst(locale: Locale, picked: string, minBuild: nat, ps: seq<Pack>, sorted: seq<Pack>)
    requires multiset(sorted) == multiset(Eligible(minBuild, ps)) && SortedBy(CompareUpstream(locale, picked), sorted)
    requires sorted != [] && locale(sorted[0].backend, sorted[0].backend) == 0
    ensures TriedFirst(picked, minBuild, ps, sorted[0])
  {
    var first, cmp := sorted[0], CompareUpstream(locale, picked);
    assert first in multiset(sorted);
    FlooredIs(minBuild, true, ps, first);
    forall p: Pack | p in ps && MeetsFloor(minBuild, p)
      ensures NotAfter(picked, first, p)
    {
      FlooredIs(minBuild, true, ps, p);
      assert p in multiset(sorted);
      HeadIsLeast(cmp, sorted, p);
      ComparedIsNotAfter(locale, picked, first, p);
    }
  }

  // --- the sort ----------------------------------------------------------------------------------

  function InsertPack(compare: Comparator, p: Pack, ps: seq<Pack>): seq<Pack> {
    if ps == [] || compare(p, ps[0]) <= 0 then [p] + ps else [ps[0]] + InsertPack(compare, p, ps[1..])
  }

  /** A stable sort by the comparator. */
  function SortPacks(compare: Comparator, ps: seq<Pack>): seq<Pack> {
    if ps == [] then [] else InsertPack(compare, ps[0], SortPacks(compare, ps[1..]))
  }

  lemma {:induction false} InsertPackKeeps(compare: Comparator, p: Pack, ps: seq<Pack>)
    ensures multiset(InsertPack(compare, p, ps)) == multiset(ps) + multiset{p}
  {
    if ps == [] || compare(p, ps[0]) <= 0 {
      Parts([p], ps);
    } else {
      var rest := InsertPack(compare, p, ps[1..]);
      InsertPackKeeps(compare, p, ps[1..]);
      HeadTail(ps);
      assert multiset([ps[0]] + rest) == multiset{ps[0]} + multiset(rest);
    }
  }

  lemma {:induction false} SortPacksKeeps(compare: Comparator, ps: seq<Pack>)
    ensures multiset(SortPacks(compare, ps)) == multiset(ps)
  {
    if ps != [] {
      SortPacksKeeps(compare, ps[1..]);
      InsertPackKeeps(compare, ps[0], SortPacks(compare, ps[1..]));
      HeadTail(ps);
    }
  }

  lemma ConsSortedBy(compare: Comparator, p: Pack, ps: seq<Pack>)
    requires SortedBy(compare, ps) && forall j :: 0 <= j < |ps| ==> compare(p, ps[j]) <= 0
    ensures SortedBy(compare, [p] + ps)
  {
  }

  /** An order of the packs that does not change sign the wrong way round. */
  ghost predicate Turns(compare: Comparator) {
    forall a: Pack, b: Pack :: compare(a, b) > 0 ==> compare(b, a) <= 0
  }

  lemma {:induction false} InsertPackSorts(compare: Comparator, p: Pack, ps: seq<Pack>, all: seq<Pack>)
    requires SortedBy(compare, ps) && OrdersPacks(compare, all) && Turns(compare)
    requires p in all && forall i :: 0 <= i < |ps| ==> ps[i] in all
    ensures SortedBy(compare, InsertPack(compare, p, ps))
    decreases |ps|
  {
    if ps == [] {
    } else if compare(p, ps[0]) <= 0 {
      forall j | 0 <= j < |ps|
        ensures compare(p, ps[j]) <= 0
      {
        if j > 0 {
          assert Agree(compare(p, ps[0]), compare(ps[0], ps[j]), compare(p, ps[j]));
        }
      }
      ConsSortedBy(compare, p, ps);
    } else {
      var tail := ps[1..];
      var rest := InsertPack(compare, p, tail);
      InsertPackSorts(compare, p, tail, all);
      InsertPackKeeps(compare, p, tail);
      forall j | 0 <= j < |rest|
        ensures compare(ps[0], rest[j]) <= 0
      {
        assert rest[j] in multiset(rest);
        if rest[j] != p {
          assert rest[j] in tail;
        }
      }
      ConsSortedBy(compare, ps[0], rest);
    }
  }

  lemma SomeInList(ps: seq<Pack>, sorted: seq<Pack>, i: nat)
    requires i < |sorted| && multiset(sorted) == multiset(ps)
    ensures sorted[i] in ps
  {
    assert sorted[i] in multiset(sorted);
  }

  lemma {:induction false} SortPacksSorts(compare: Comparator, ps: seq<Pack>, all: seq<Pack>)
    requires OrdersPacks(compare, all) && Turns(compare) && forall i :: 0 <= i < |ps| ==> ps[i] in all
    ensures SortedBy(compare, SortPacks(compare, ps))
  {
    if ps != [] {
      var tail := ps[1..];
      SortPacksSorts(compare, tail, all);
      SortPacksKeeps(compare, tail);
      forall i | 0 <= i < |SortPacks(compare, tail)|
        ensures SortPacks(compare, tail)[i] in all
      {
        SomeInList(tail, SortPacks(compare, tail), i);
      }
      InsertPackSorts(compare, ps[0], SortPacks(compare, tail), all);
    }
  }

  lemma UpstreamFlips(locale: Locale, picked: string, a: Pack, b: Pack)
    requires Collates(locale) && CompareUpstream(locale, picked)(a, b) > 0
    ensures CompareUpstream(locale, picked)(b, a) <= 0
  {
    UpstreamIsLexicographic(locale, picked, a, b);
    UpstreamIsLexicographic(locale, picked, b, a);
    LexFlips(UpstreamKey(picked, a), UpstreamKey(picked, b));
    assert locale(a.backend, b.backend) > 0 <==> locale(b.backend, a.backend) < 0;
  }

  lemma UpstreamTurns(locale: Locale, picked: string)
    requires Collates(locale)
    ensures Turns(CompareUpstream(locale, picked))
  {
    forall a: Pack, b: Pack | CompareUpstream(locale, picked)(a, b) > 0
      ensures CompareUpstream(locale, picked)(b, a) <= 0
    {
      UpstreamFlips(locale, picked, a, b);
    }
  }

  lemma ForkTurns(locale: Locale)
    requires Collates(locale)
    ensures Turns(CompareFork(locale))
  {
    forall a: Pack, b: Pack | CompareFork(locale)(a, b) > 0
      ensures CompareFork(locale)(b, a) <= 0
    {
      KeysFlip(a, b);
      assert locale(a.backend, b.backend) > 0 <==> locale(b.backend, a.backend) < 0;
      assert locale(b.version, a.version) > 0 <==> locale(a.version, b.version) < 0;
    }
  }

  /**
   * `orderEngineCandidates` on a list without a clash: a sorted permutation, whose first build no other
   * beats on the version gate, nor of those with its gate on the build number.
   */
  lemma ForkIsSorted(locale: Locale, ps: seq<Pack>)
    requires Collates(locale) && !HasClash(locale, ps)
    ensures var sorted := SortPacks(CompareFork(locale), ps);
      && multiset(sorted) == multiset(ps) && SortedBy(CompareFork(locale), sorted)
      && (forall p: Pack :: p in sorted ==>
            && GateRank(sorted[0].version) <= GateRank(p.version)
            && (GateRank(sorted[0].version) == GateRank(p.version) ==> BuildOf(p.version) <= BuildOf(sorted[0].version)))
  {
    var cmp := CompareFork(locale);
    var sorted := SortPacks(cmp, ps);
    ForkOrdersIffNoClash(locale, ps);
    ForkTurns(locale);
    SortPacksKeeps(cmp, ps);
    SortPacksSorts(cmp, ps, ps);
    forall p: Pack | p in sorted
      ensures cmp(sorted[0], p) <= 0
    {
      HeadIsLeast(cmp, sorted, p);
    }
  }

  /**
   * `orderUpstreamCandidates`: every pack is in one of the two lists, and the eligible ones are in the
   * order in which they are to be tried.
   */
  method OrderUpstream(locale: Locale, packs: seq<Pack>, minBuild: nat, preferred: string)
    returns (eligible: seq<Pack>, tooOld: seq<Pack>)
    requires Collates(locale)
    ensures multiset(eligible) + multiset(tooOld) == multiset(packs)
    ensures forall p: Pack :: p in packs ==> if MeetsFloor(minBuild, p) then p in eligible else p in tooOld
    ensures SortedBy(CompareUpstream(locale, Trim(preferred)), eligible)
    ensures eligible != [] ==> TriedFirst(Trim(preferred), minBuild, packs, eligible[0])
  {
    eligible, tooOld := SplitByFloor(packs, minBuild);
    FlooredSplits(minBuild, packs);
    forall p: Pack | p in packs && !MeetsFloor(minBuild, p)
      ensures p in tooOld
    {
      FlooredIs(minBuild, false, packs, p);
    }
    SortedUpstream(locale, Trim(preferred), minBuild, packs);
    eligible := SortPacks(CompareUpstream(locale, Trim(preferred)), eligible);
  }

  /** The loop: each pack goes into one of the two lists. */
  method SplitByFloor(packs: seq<Pack>, minBuild: nat) returns (eligible: seq<Pack>, tooOld: seq<Pack>)
    ensures eligible == Floored(minBuild, true, packs) && tooOld == Floored(minBuild, false, packs)
  {
    eligible, tooOld := [], [];
    for i := 0 to |packs|
      invariant eligible == Floored(minBuild, true, packs[..i]) && tooOld == Floored(minBuild, false, packs[..i])
    {
      FlooredMore(minBuild, true, packs, i);
      FlooredMore(minBuild, false, packs, i);
      if MeetsFloor(minBuild, packs[i]) {
        eligible := eligible + [packs[i]];
      } else {
        tooOld := tooOld + [packs[i]];
      }
    }
    assert packs[..|packs|] == packs;
  }

  lemma SortedUpstream(locale: Locale, picked: string, minBuild: nat, packs: seq<Pack>)
    requires Collates(locale)
    ensures var es := Eligible(minBuild, packs);
      var sorted := SortPacks(CompareUpstream(locale, picked), es);
      && multiset(sorted) == multiset(es) && SortedBy(CompareUpstream(locale, picked), sorted)
      && (sorted != [] ==> TriedFirst(picked, minBuild, packs, sorted[0]))
      && forall p: Pack :: p in packs && MeetsFloor(minBuild, p) ==> p in sorted
  {
    var es, cmp := Eligible(minBuild, packs), CompareUpstream(locale, picked);
    var sorted := SortPacks(cmp, es);
    UpstreamOrders(locale, picked, es);
    UpstreamTurns(locale, picked);
    SortPacksKeeps(cmp, es);
    SortPacksSorts(cmp, es, es);
    if sorted != [] {
      PickedIsFirst(locale, picked, minBuild, packs, sorted);
    }
    forall p: Pack | p in packs && MeetsFloor(minBuild, p)
      ensures p in sorted
    {
      FlooredIs(minBuild, true, packs, p);
      assert p in multiset(sorted);
    }
  }

  // --- and chosen --------------------------------------------------------------------------------

  function AsCandidates(ps: seq<Pack>): seq<DecisionEngine.Candidate> {
    seq(|ps|, i requires 0 <= i < |ps| => DecisionEngine.Candidate(ps[i].path, VersionBackend(ps[i])))
  }

  /** The gate chooses the build the user picked whenever that is installed, new enough and passes. */
  lemma PickedIsChosen(picked: string, minBuild: nat, ps: seq<Pack>, sorted: seq<Pack>, p: Pack,
                       rs: seq<Option<DecisionEngine.Refusal>>, r: DecisionEngine.Resolved)
    requires sorted != [] && TriedFirst(picked, minBuild, ps, sorted[0])
    requires p in ps && MeetsFloor(minBuild, p) && IsPicked(picked, p)
    requires |rs| == |sorted| && rs[0].None? && DecisionEngine.Answers(rs, AsCandidates(sorted), r)
    ensures r.Chosen? && r.candidate.versionBackend == picked
  {
    assert IsPicked(picked, sorted[0]);
    assert DecisionEngine.FirstPass(rs, 0);
    DecisionEngine.AnswerIsUnique(rs, AsCandidates(sorted), r, DecisionEngine.Chosen(AsCandidates(sorted)[0]));
  }
}
