// The machine-readable last line of a load failure's details (src/contracts/load-diag.ts).

module LoadDiag {
  import opened Options
  import opened Text
  import opened Splitting

  const LOAD_DIAG_PREFIX := "atomic-core-diag "

  datatype Value = Undefined | Null | Words(text: string) | Flag(on: bool)

  /** The fields of a diagnostic, as `Object.entries` lists them: an object has each key once. */
  type Diag = seq<(string, Value)>

  predicate Kept(v: Value) {
    !v.Undefined? && !v.Null? && v != Words("")
  }

  /** The fields that are written. */
  function Clean(d: Diag): Diag {
    if d == [] then [] else Clean(d[..|d| - 1]) + (if Kept(d[|d| - 1].1) then [d[|d| - 1]] else [])
  }

  lemma {:induction false} CleanIsClean(d: Diag)
    ensures Clean(Clean(d)) == Clean(d)
  {
    if d != [] {
      var n := |d| - 1;
      CleanIsClean(d[..n]);
      if Kept(d[n].1) {
        assert (Clean(d[..n]) + [d[n]])[..|Clean(d[..n])|] == Clean(d[..n]);
      } else {
        assert Clean(d) == Clean(d[..n]);
      }
    }
  }

  predicate DistinctKeys(d: Diag) {
    forall i, j :: 0 <= i < j < |d| ==> d[i].0 != d[j].0
  }

  /** Exactly the fields with a value are kept, as they are, and no key comes to be there twice. */
  lemma {:induction false} CleanKeeps(d: Diag)
    ensures forall f: (string, Value) :: f in Clean(d) <==> f in d && Kept(f.1)
    ensures DistinctKeys(d) ==> DistinctKeys(Clean(d))
  {
    if d != [] {
      var n := |d| - 1;
      CleanKeeps(d[..n]);
      assert d == d[..n] + [d[n]];
      if DistinctKeys(d) {
        assert DistinctKeys(d[..n]);
        forall i | 0 <= i < |Clean(d[..n])|
          ensures Clean(d[..n])[i].0 != d[n].0
        {
          assert Clean(d[..n])[i] in d[..n];
        }
      }
    }
  }

  datatype Parsed = NotJson | NotObject | Object(diag: Diag)

  /** `JSON.stringify` and `JSON.parse` of a diagnostic. */
  datatype Codec = Codec(stringify: Diag -> string, parse: string -> Parsed)

  /** One line of text that reads back as the object written. */
  ghost predicate GoodCodec(codec: Codec) {
    forall d: Diag :: Clean(d) == d && DistinctKeys(d) ==>
      var text := codec.stringify(d);
      codec.parse(text) == Object(d) && OneLine(text) && Trimmed(text) && text != ""
  }

  function DiagLine(codec: Codec, d: Diag): string {
    LOAD_DIAG_PREFIX + codec.stringify(Clean(d))
  }

  /** `formatLoadDiag` */
  method FormatLoadDiag(codec: Codec, d: Diag) returns (line: string)
    ensures line == DiagLine(codec, d)
  {
    var clean: Diag := [];
    for i := 0 to |d|
      invariant clean == Clean(d[..i])
    {
      assert d[..i + 1][..i] == d[..i];
      if Kept(d[i].1) {
        clean := clean + [d[i]];
      }
    }
    assert d[..|d|] == d;
    line := LOAD_DIAG_PREFIX + codec.stringify(clean);
  }

  // --- stripping and appending -------------------------------------------------------------------

  predicate IsDiag(line: string) {
    StartsWith(line, LOAD_DIAG_PREFIX)
  }

  function NotDiag(lines: seq<string>): seq<string> {
    if lines == [] then []
    else NotDiag(lines[..|lines| - 1]) + (if IsDiag(lines[|lines| - 1]) then [] else [lines[|lines| - 1]])
  }

  function StripLoadDiag(details: string): string {
    JoinLines(NotDiag(Lines(details)))
  }

  function WithLoadDiag(codec: Codec, details: Option<string>, d: Diag): string {
    var base := TrimEnd(StripLoadDiag(if details.Some? then details.value else ""));
    if base == "" then DiagLine(codec, d) else base + NL + DiagLine(codec, d)
  }

  predicate NoDiagLine(lines: seq<string>) {
    forall i :: 0 <= i < |lines| ==> !IsDiag(lines[i])
  }

  lemma {:induction false} NotDiagIs(lines: seq<string>)
    ensures NoDiagLine(NotDiag(lines)) && (forall l: string :: l in NotDiag(lines) ==> l in lines)
    ensures NoDiagLine(lines) ==> NotDiag(lines) == lines
  {
    if lines != [] {
      var n := |lines| - 1;
      NotDiagIs(lines[..n]);
      assert lines == lines[..n] + [lines[n]];
    }
  }

  lemma {:induction false} TrimEndIsStart(s: string) returns (cut: string)
    ensures s == TrimEnd(s) + cut && TrimEnd(TrimEnd(s)) == TrimEnd(s)
  {
    cut := "";
    if s != [] && IsSpace(s[|s| - 1]) {
      var more := TrimEndIsStart(s[..|s| - 1]);
      cut := more + [s[|s| - 1]];
    }
  }

  /** What `withLoadDiag` keeps of the details has no diagnostic line and no space at its end. */
  lemma BaseHasNoDiag(details: string)
    ensures var base := TrimEnd(StripLoadDiag(details)); NoDiagLine(Lines(base)) && TrimEnd(base) == base
  {
    var kept := NotDiag(Lines(details));
    var s := StripLoadDiag(details);
    NotDiagIs(Lines(details));
    LinesAreOneLine(details);
    if kept == [] {
      NothingKept();
    } else {
      forall i | 0 <= i < |kept|
        ensures OneLine(kept[i])
      {
        assert kept[i] in Lines(details);
      }
      LinesOfJoin(kept);
    }
    var cut := TrimEndIsStart(s);
    var base := TrimEnd(s);
    LinesOfStart(base, cut);
    forall i | 0 <= i < |Lines(base)|
      ensures !IsDiag(Lines(base)[i])
    {
      assert Lines(base)[i] <= Lines(s)[i];
      ShorterIsNoDiag(Lines(base)[i], Lines(s)[i]);
    }
  }

  lemma NothingKept()
    ensures NoDiagLine(Lines(""))
  {
    OneLineNoSep("");
    IndexOfIs("", NL);
    assert Lines("") == [""];
    assert |LOAD_DIAG_PREFIX| > 0;
  }

  lemma ShorterIsNoDiag(a: string, b: string)
    requires a <= b && !IsDiag(b)
    ensures !IsDiag(a)
  {
  }

  lemma DiagLineIsOne(codec: Codec, d: Diag)
    requires GoodCodec(codec) && DistinctKeys(d)
    ensures OneLine(DiagLine(codec, d)) && IsDiag(DiagLine(codec, d)) && Trimmed(DiagLine(codec, d))
    ensures Trim(DiagLine(codec, d)) == DiagLine(codec, d)
  {
    CleanIsClean(d);
    CleanKeeps(d);
    var line, text := DiagLine(codec, d), codec.stringify(Clean(d));
    assert OneLine(LOAD_DIAG_PREFIX);
    assert line[0] == 'a' && !IsSpace('a');
    assert line[|line| - 1] == text[|text| - 1];
  }

  lemma LinesOfOne(line: string)
    requires OneLine(line)
    ensures Lines(line) == [line]
  {
    OneLineNoSep(line);
    IndexOfIs(line, NL);
  }

  /** The diagnostic is the last line, and no other line is one. */
  lemma DiagIsLastLine(codec: Codec, details: Option<string>, d: Diag)
    requires GoodCodec(codec) && DistinctKeys(d)
    ensures var lines := Lines(WithLoadDiag(codec, details, d));
      lines != [] && lines[|lines| - 1] == DiagLine(codec, d) && NoDiagLine(lines[..|lines| - 1])
  {
    var text := if details.Some? then details.value else "";
    var base, line := TrimEnd(StripLoadDiag(text)), DiagLine(codec, d);
    BaseHasNoDiag(text);
    DiagLineIsOne(codec, d);
    if base == "" {
      LinesOfOne(line);
    } else {
      LinesAppend(base, line);
      assert (Lines(base) + [line])[..|Lines(base)|] == Lines(base);
    }
  }

  /** Stripping takes off exactly what was appended. */
  lemma StripUndoes(codec: Codec, details: Option<string>, d: Diag)
    requires GoodCodec(codec) && DistinctKeys(d)
    ensures StripLoadDiag(WithLoadDiag(codec, details, d)) == TrimEnd(StripLoadDiag(if details.Some? then details.value else ""))
  {
    var text := if details.Some? then details.value else "";
    var base, line := TrimEnd(StripLoadDiag(text)), DiagLine(codec, d);
    BaseHasNoDiag(text);
    DiagLineIsOne(codec, d);
    if base == "" {
      LinesOfOne(line);
      assert [line][..0] == [];
      assert NotDiag([line]) == [];
    } else {
      LinesAppend(base, line);
      var lines := Lines(base) + [line];
      assert lines[..|Lines(base)|] == Lines(base);
      NotDiagIs(Lines(base));
      assert NotDiag(lines) == Lines(base);
      JoinOfLines(base);
    }
  }

  /** Last write wins. */
  lemma LastWriteWins(codec: Codec, details: Option<string>, first: Diag, second: Diag)
    requires GoodCodec(codec) && DistinctKeys(first)
    ensures WithLoadDiag(codec, Some(WithLoadDiag(codec, details, first)), second) == WithLoadDiag(codec, details, second)
  {
    StripUndoes(codec, details, first);
    BaseHasNoDiag(if details.Some? then details.value else "");
  }

  // --- reading it back ---------------------------------------------------------------------------

  function DiagOf(codec: Codec, line: string): Option<Diag>
    requires IsDiag(line)
  {
    var parsed := codec.parse(line[|LOAD_DIAG_PREFIX|..]);
    if parsed.Object? then Some(parsed.diag) else None
  }

  /** The last line that is a diagnostic once trimmed decides. */
  function LastDiag(codec: Codec, lines: seq<string>): Option<Diag> {
    if lines == [] then None
    else
      var line := Trim(lines[|lines| - 1]);
      if IsDiag(line) then DiagOf(codec, line) else LastDiag(codec, lines[..|lines| - 1])
  }

  /** `parseLoadDiag` */
  method ParseLoadDiag(codec: Codec, text: Option<string>) returns (d: Option<Diag>)
    ensures d == if text.None? || text.value == "" then None else LastDiag(codec, Lines(text.value))
  {
    if text.None? || text.value == "" {
      return None;
    }
    var lines := Lines(text.value);
    var i := |lines|;
    assert lines[..i] == lines;
    while i > 0
      invariant i <= |lines| && LastDiag(codec, lines) == LastDiag(codec, lines[..i])
    {
      i := i - 1;
      var line := Trim(lines[i]);
      assert lines[..i + 1][..i] == lines[..i];
      if IsDiag(line) {
        return DiagOf(codec, line);
      }
    }
    d := None;
  }

  /** Reading back gives the cleaned diagnostic, whatever the details were. */
  lemma ParseRecovers(codec: Codec, details: Option<string>, d: Diag)
    requires GoodCodec(codec) && DistinctKeys(d)
    ensures var text := WithLoadDiag(codec, details, d);
      text != "" && LastDiag(codec, Lines(text)) == Some(Clean(d))
  {
    DiagIsLastLine(codec, details, d);
    DiagLineIsOne(codec, d);
    CleanIsClean(d);
    CleanKeeps(d);
    assert DiagLine(codec, d)[|LOAD_DIAG_PREFIX|..] == codec.stringify(Clean(d));
  }
}
