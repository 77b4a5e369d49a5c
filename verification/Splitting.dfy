// Splitting a text on a separator, as `indexOf` in a loop and `String.prototype.split` do it.

module Splitting {
  import opened Options
  import opened Text

  // --- splitting a text ------------------------------------------------------------------------

  predicate SepAt(s: string, sep: string, i: nat) {
    i + |sep| <= |s| && s[i..i + |sep|] == sep
  }

  function IndexFrom(s: string, sep: string, from: nat): (r: Option<nat>)
    requires from <= |s|
    ensures r.Some? ==> r.value + |sep| <= |s|
    decreases |s| - from
  {
    if SepAt(s, sep, from) then Some(from) else if from == |s| then None else IndexFrom(s, sep, from + 1)
  }

  /** `s.indexOf(sep)` */
  function IndexOf(s: string, sep: string): (r: Option<nat>)
    ensures r.Some? ==> r.value + |sep| <= |s|
  {
    IndexFrom(s, sep, 0)
  }

  /** The separator is here and nowhere before. */
  predicate FirstSep(s: string, sep: string, i: nat) {
    SepAt(s, sep, i) && forall j: nat :: j < i ==> !SepAt(s, sep, j)
  }

  predicate NoSep(s: string, sep: string) {
    forall j: nat :: j <= |s| ==> !SepAt(s, sep, j)
  }

  lemma {:induction false} IndexFromIs(s: string, sep: string, from: nat)
    requires from <= |s| && forall j: nat :: j < from ==> !SepAt(s, sep, j)
    ensures var r := IndexFrom(s, sep, from); if r.Some? then FirstSep(s, sep, r.value) else NoSep(s, sep)
    decreases |s| - from
  {
    if !SepAt(s, sep, from) && from < |s| {
      IndexFromIs(s, sep, from + 1);
    }
  }

  lemma IndexOfIs(s: string, sep: string)
    ensures var r := IndexOf(s, sep); if r.Some? then FirstSep(s, sep, r.value) else NoSep(s, sep)
  {
    IndexFromIs(s, sep, 0);
  }

  lemma FirstSepIsIndex(s: string, sep: string, i: nat)
    requires FirstSep(s, sep, i)
    ensures IndexOf(s, sep) == Some(i)
  {
    IndexOfIs(s, sep);
    var r := IndexOf(s, sep);
  }

  /** The pieces of a text that a separator ends. */
  function Frames(s: string, sep: string): seq<string>
    requires sep != []
    decreases |s|
  {
    var i := IndexOf(s, sep);
    if i.None? then [] else [s[..i.value]] + Frames(s[i.value + |sep|..], sep)
  }

  /** What follows the last separator. */
  function Rest(s: string, sep: string): string
    requires sep != []
    decreases |s|
  {
    var i := IndexOf(s, sep);
    if i.None? then s else Rest(s[i.value + |sep|..], sep)
  }

  lemma SameSlice(s: string, t: string, n: nat, lo: nat, hi: nat)
    requires lo <= hi <= n <= |s| && n <= |t| && s[..n] == t[..n]
    ensures s[lo..hi] == t[lo..hi]
  {
    assert s[..n][lo..hi] == s[lo..hi];
    assert t[..n][lo..hi] == t[lo..hi];
  }

  /** Two texts that agree up to the end of the first separator of one have it in common. */
  lemma IndexStays(s: string, t: string, sep: string, i: nat)
    requires IndexOf(s, sep) == Some(i) && i + |sep| <= |t| && s[..i + |sep|] == t[..i + |sep|]
    ensures IndexOf(t, sep) == Some(i)
  {
    IndexOfIs(s, sep);
    SameSlice(s, t, i + |sep|, i, i + |sep|);
    forall j: nat | j < i
      ensures !SepAt(t, sep, j)
    {
      assert !SepAt(s, sep, j);
      SameSlice(s, t, i + |sep|, j, j + |sep|);
    }
    FirstSepIsIndex(t, sep, i);
  }

  /** The first separator of a text stays the first when more text follows. */
  lemma SplitFirst(a: string, b: string, sep: string, i: nat)
    requires sep != [] && IndexOf(a, sep) == Some(i)
    ensures var tail := a[i + |sep|..];
      && Frames(a + b, sep) == [a[..i]] + Frames(tail + b, sep) && Rest(a + b, sep) == Rest(tail + b, sep)
  {
    DropConcat(a, b, i + |sep|);
    DropConcat(a, b, i);
    IndexStays(a, a + b, sep, i);
  }

  lemma SplitUnfold(a: string, sep: string, i: nat)
    requires sep != [] && IndexOf(a, sep) == Some(i)
    ensures Frames(a, sep) == [a[..i]] + Frames(a[i + |sep|..], sep) && Rest(a, sep) == Rest(a[i + |sep|..], sep)
  {
  }

  lemma SplitUnsplit(a: string, b: string, sep: string)
    requires sep != [] && IndexOf(a, sep).None?
    ensures Frames(a, sep) + Frames(Rest(a, sep) + b, sep) == Frames(a + b, sep) && Rest(a, sep) == a
  {
  }

  lemma SplitOn(a: string, b: string, sep: string, i: nat)
    requires sep != [] && IndexOf(a, sep) == Some(i)
    requires var tail := a[i + |sep|..];
      && Frames(tail + b, sep) == Frames(tail, sep) + Frames(Rest(tail, sep) + b, sep)
      && Rest(tail + b, sep) == Rest(Rest(tail, sep) + b, sep)
    ensures Frames(a + b, sep) == Frames(a, sep) + Frames(Rest(a, sep) + b, sep)
    ensures Rest(a + b, sep) == Rest(Rest(a, sep) + b, sep)
  {
    var tail := a[i + |sep|..];
    SplitFirst(a, b, sep, i);
    SplitUnfold(a, sep, i);
    Assoc([a[..i]], Frames(tail, sep), Frames(Rest(tail, sep) + b, sep));
  }

  /** Splitting can stop anywhere and go on with what is left. */
  lemma {:induction false} SplitAppend(a: string, b: string, sep: string)
    requires sep != []
    ensures Frames(a + b, sep) == Frames(a, sep) + Frames(Rest(a, sep) + b, sep)
    ensures Rest(a + b, sep) == Rest(Rest(a, sep) + b, sep)
    decreases |a|
  {
    var i := IndexOf(a, sep);
    if i.None? {
      SplitUnsplit(a, b, sep);
    } else {
      SplitAppend(a[i.value + |sep|..], b, sep);
      SplitOn(a, b, sep, i.value);
    }
  }

  // --- what the split is -----------------------------------------------------------------------

  function Glue(frames: seq<string>, sep: string): string {
    if frames == [] then [] else frames[0] + sep + Glue(frames[1..], sep)
  }

  /** The text is these frames, each ended by the first separator that occurs in it, and a rest with none. */
  predicate IsSplit(s: string, sep: string, frames: seq<string>, rest: string) {
    && s == Glue(frames, sep) + rest && NoSep(rest, sep)
    && forall i :: 0 <= i < |frames| ==> FirstSep(frames[i] + sep, sep, |frames[i]|)
  }

  /** There is exactly one such split, and it is the one the readers make. */
  lemma {:induction false} SplitUnique(s: string, sep: string, frames: seq<string>, rest: string)
    requires sep != [] && IsSplit(s, sep, frames, rest)
    ensures frames == Frames(s, sep) && rest == Rest(s, sep)
    decreases |frames|
  {
    if frames == [] {
      assert s == rest;
      IndexOfIs(s, sep);
    } else {
      var f, more := frames[0], Glue(frames[1..], sep) + rest;
      assert s == (f + sep) + more;
      FirstSepIsIndex(f + sep, sep, |f|);
      SplitFirst(f + sep, more, sep, |f|);
      assert (f + sep)[..|f|] == f && (f + sep)[|f| + |sep|..] + more == more;
      SplitUnique(more, sep, frames[1..], rest);
    }
  }

  lemma FrameEnds(s: string, sep: string, i: nat)
    requires IndexOf(s, sep) == Some(i)
    ensures FirstSep(s[..i] + sep, sep, i) && s == s[..i] + sep + s[i + |sep|..]
  {
    IndexOfIs(s, sep);
    assert s[..i] + sep == s[..i + |sep|];
    IndexStays(s, s[..i] + sep, sep, i);
    IndexOfIs(s[..i] + sep, sep);
  }

  /** One more frame in front. */
  lemma SplitCons(first: string, tail: string, sep: string, fs: seq<string>, rest: string)
    requires FirstSep(first + sep, sep, |first|) && IsSplit(tail, sep, fs, rest)
    ensures IsSplit(first + sep + tail, sep, [first] + fs, rest)
  {
    Parts([first], fs);
    Assoc(first + sep, Glue(fs, sep), rest);
  }

  lemma {:induction false} FramesAreSplit(s: string, sep: string)
    requires sep != []
    ensures IsSplit(s, sep, Frames(s, sep), Rest(s, sep))
    decreases |s|
  {
    var i := IndexOf(s, sep);
    IndexOfIs(s, sep);
    if i.Some? {
      var first, tail := s[..i.value], s[i.value + |sep|..];
      FramesAreSplit(tail, sep);
      FrameEnds(s, sep, i.value);
      SplitUnfold(s, sep, i.value);
      SplitCons(first, tail, sep, Frames(tail, sep), Rest(tail, sep));
    }
  }

  // --- lines -----------------------------------------------------------------------------------

  const NL := "\n"

  /** `s.split('\n')` */
  function Lines(s: string): seq<string> {
    Frames(s, NL) + [Rest(s, NL)]
  }

  /** `lines.join('\n')` */
  function JoinLines(lines: seq<string>): string {
    if lines == [] then "" else if |lines| == 1 then lines[0] else lines[0] + NL + JoinLines(lines[1..])
  }

  predicate OneLine(s: string) {
    '\n' !in s
  }

  lemma NewlineEnds(line: string)
    requires OneLine(line)
    ensures FirstSep(line + NL, NL, |line|)
  {
    assert (line + NL)[|line|..|line| + 1] == NL;
    forall j: nat | j < |line|
      ensures !SepAt(line + NL, NL, j)
    {
      assert (line + NL)[j..j + 1][0] == line[j];
    }
  }

  lemma OneLineNoSep(line: string)
    requires OneLine(line)
    ensures NoSep(line, NL)
  {
    forall j: nat | j <= |line|
      ensures !SepAt(line, NL, j)
    {
      assert j < |line| ==> line[j..j + 1][0] == line[j];
    }
  }

  lemma LinesAreOneLine(s: string)
    ensures forall i :: 0 <= i < |Lines(s)| ==> OneLine(Lines(s)[i])
  {
    FramesAreSplit(s, NL);
    forall i | 0 <= i < |Lines(s)|
      ensures OneLine(Lines(s)[i])
    {
      var line := Lines(s)[i];
      forall j: nat | j < |line|
        ensures line[j] != '\n'
      {
        if i < |Frames(s, NL)| {
          assert !SepAt(line + NL, NL, j);
          assert (line + NL)[j..j + 1] == [line[j]];
        } else {
          assert !SepAt(line, NL, j);
          assert line[j..j + 1] == [line[j]];
        }
      }
    }
  }

  lemma {:induction false} GlueMore(fs: seq<string>, f: string, sep: string)
    ensures Glue(fs + [f], sep) == Glue(fs, sep) + f + sep
    decreases |fs|
  {
    if fs == [] {
      assert fs + [f] == [f] && [f][1..] == [];
    } else {
      GlueMore(fs[1..], f, sep);
      assert (fs + [f])[1..] == fs[1..] + [f];
      var a, g := fs[0] + sep, Glue(fs[1..], sep);
      Assoc(a, g + f, sep);
      Assoc(a, g, f);
    }
  }

  lemma {:induction false} JoinIsGlue(fs: seq<string>, last: string)
    ensures JoinLines(fs + [last]) == Glue(fs, NL) + last
    decreases |fs|
  {
    if fs == [] {
      assert fs + [last] == [last];
    } else {
      JoinIsGlue(fs[1..], last);
      assert (fs + [last])[1..] == fs[1..] + [last];
      Assoc(fs[0] + NL, Glue(fs[1..], NL), last);
    }
  }

  /** Joining the lines of a text gives the text. */
  lemma JoinOfLines(s: string)
    ensures JoinLines(Lines(s)) == s
  {
    FramesAreSplit(s, NL);
    JoinIsGlue(Frames(s, NL), Rest(s, NL));
  }

  /** Splitting joined lines gives the lines. */
  lemma LinesOfJoined(fs: seq<string>, last: string)
    requires OneLine(last) && forall i :: 0 <= i < |fs| ==> OneLine(fs[i])
    ensures Lines(JoinLines(fs + [last])) == fs + [last]
  {
    JoinIsGlue(fs, last);
    forall i | 0 <= i < |fs|
      ensures FirstSep(fs[i] + NL, NL, |fs[i]|)
    {
      NewlineEnds(fs[i]);
    }
    OneLineNoSep(last);
    SplitUnique(JoinLines(fs + [last]), NL, fs, last);
  }

  lemma LinesOfJoin(ls: seq<string>)
    requires ls != [] && forall i :: 0 <= i < |ls| ==> OneLine(ls[i])
    ensures Lines(JoinLines(ls)) == ls
  {
    InitLast(ls);
    LinesOfJoined(ls[..|ls| - 1], ls[|ls| - 1]);
  }

  lemma LinesAppend(s: string, line: string)
    requires OneLine(line)
    ensures Lines(s + NL + line) == Lines(s) + [line]
  {
    LinesAreOneLine(s);
    FramesAreSplit(s, NL);
    GlueMore(Frames(s, NL), Rest(s, NL), NL);
    JoinIsGlue(Lines(s), line);
    LinesOfJoined(Lines(s), line);
  }

  lemma NotBefore(r: string, u: string)
    requires NoSep(r, NL)
    ensures forall i: nat :: i < |r| ==> !SepAt(r + u, NL, i)
  {
    forall i: nat | i < |r|
      ensures !SepAt(r + u, NL, i)
    {
      assert !SepAt(r, NL, i);
      assert (r + u)[i..i + 1] == r[i..i + 1];
    }
  }

  /** The lines of the beginning of a text are its lines, the last one cut. */
  lemma LinesOfStart(t: string, u: string)
    ensures |Lines(t)| <= |Lines(t + u)|
    ensures forall i :: 0 <= i < |Lines(t)| ==> Lines(t)[i] <= Lines(t + u)[i]
  {
    var fs, r := Frames(t, NL), Rest(t, NL);
    SplitAppend(t, u, NL);
    var more := Frames(r + u, NL);
    assert Lines(t + u) == fs + more + [Rest(r + u, NL)];
    FramesAreSplit(t, NL);
    IndexOfIs(r + u, NL);
    var i := IndexOf(r + u, NL);
    NotBefore(r, u);
    assert Lines(t + u)[|fs|] == if i.Some? then (r + u)[..i.value] else r + u;
  }
}
