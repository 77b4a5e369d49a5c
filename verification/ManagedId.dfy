// Managed ids as directory names (src/config/paths.ts): the bytes of an id percent-encoded into one
// path segment, after section 2.1 of RFC 3986, and read back.

module ManagedId {
  import opened Options
  import opened Text

  // --- characters ------------------------------------------------------------------------------

  /** `[A-Za-z0-9._-]` */
  predicate Unreserved(c: char) {
    'A' <= c <= 'Z' || 'a' <= c <= 'z' || '0' <= c <= '9' || c == '.' || c == '_' || c == '-'
  }

  function HexDigit(n: nat): char
    requires n < 16
  {
    if n < 10 then '0' + n as char else 'A' + (n - 10) as char
  }

  predicate IsHex(c: char) {
    '0' <= c <= '9' || 'A' <= c <= 'F' || 'a' <= c <= 'f'
  }

  function HexValue(c: char): (n: nat)
    requires IsHex(c)
    ensures n < 16
  {
    if c <= '9' then c as int - '0' as int else if c <= 'F' then c as int - 'A' as int + 10 else c as int - 'a' as int + 10
  }

  function PairValue(high: char, low: char): Byte
    requires IsHex(high) && IsHex(low)
  {
    HexValue(high) * 16 + HexValue(low)
  }

  function Percent(b: Byte): string {
    ['%', HexDigit(b / 16), HexDigit(b % 16)]
  }

  /** One byte of an id, spelled. */
  function Spell(b: Byte): string {
    if Unreserved(b as char) then [b as char] else Percent(b)
  }

  function SpellAll(id: seq<Byte>): string {
    if id == [] then [] else SpellAll(id[..|id| - 1]) + Spell(id[|id| - 1])
  }

  // --- the shapes that are no names ------------------------------------------------------------

  const ESCAPED_DOT := ['%', '2', 'E']

  predicate AllDots(s: string) {
    s != [] && forall i :: 0 <= i < |s| ==> s[i] == '.'
  }

  /** Every dot escaped. */
  function EscapeAllDots(s: string): string {
    if s == [] then []
    else EscapeAllDots(s[..|s| - 1]) + (if s[|s| - 1] == '.' then ESCAPED_DOT else [s[|s| - 1]])
  }

  /** The run of dots at the end escaped. */
  function EscapeEnd(s: string): string {
    if s != [] && s[|s| - 1] == '.' then EscapeEnd(s[..|s| - 1]) + ESCAPED_DOT else s
  }

  predicate IsWord(s: string, word: string) {
    |s| == |word| && forall i :: 0 <= i < |s| ==> Lower(s[i]) == word[i]
  }

  /** `con`, `prn`, `aux`, `nul`, `com1`-`com9`, `lpt1`-`lpt9`, in any case. */
  predicate IsDevice(s: string) {
    || IsWord(s, "con") || IsWord(s, "prn") || IsWord(s, "aux") || IsWord(s, "nul")
    || (|s| == 4 && '1' <= s[3] <= '9' && (IsWord(s[..3], "com") || IsWord(s[..3], "lpt")))
  }

  /** A device name, alone or with an extension. */
  predicate NamesDevice(s: string) {
    exists k :: 0 < k <= |s| && IsDevice(s[..k]) && (k == |s| || s[k] == '.')
  }

  /** The directory name of a non-empty id. */
  function Encode(id: seq<Byte>): string {
    var out := SpellAll(id);
    if AllDots(out) then EscapeAllDots(out)
    else
      var s := EscapeEnd(out);
      if NamesDevice(s) && s[0] as int < 256 then Percent(s[0] as int) + s[1..] else s
  }

  // --- reading back ----------------------------------------------------------------------------

  /** Every `%` is followed by two hexadecimal digits. */
  predicate Decodable(s: string) {
    s == [] || (if s[0] != '%' then Decodable(s[1..]) else |s| >= 3 && IsHex(s[1]) && IsHex(s[2]) && Decodable(s[3..]))
  }

  /** A character stands for its code, cut to a byte; `%XX` for the byte it spells. */
  function Decode(s: string): seq<Byte>
    requires Decodable(s)
  {
    if s == [] then []
    else if s[0] != '%' then [s[0] as int % 256] + Decode(s[1..])
    else [PairValue(s[1], s[2])] + Decode(s[3..])
  }

  /** The text decodes, and to these bytes. */
  predicate DecodesTo(s: string, id: seq<Byte>) {
    Decodable(s) && Decode(s) == id
  }

  lemma PercentDecodes(b: Byte)
    ensures DecodesTo(Percent(b), [b])
  {
    var p := Percent(b);
    assert HexValue(p[1]) == b / 16 && HexValue(p[2]) == b % 16;
    assert p[3..] == [];
  }

  /** What decodes up to a point decodes piece by piece. */
  lemma {:induction false} DecodeConcat(s: string, t: string)
    requires Decodable(s) && Decodable(t)
    ensures DecodesTo(s + t, Decode(s) + Decode(t))
    decreases |s|
  {
    if s == [] {
      assert s + t == t;
    } else {
      var n := if s[0] != '%' then 1 else 3;
      var first: Byte := if s[0] != '%' then s[0] as int % 256 else PairValue(s[1], s[2]);
      DecodeConcat(s[n..], t);
      DropConcat(s, t, n);
      assert Decode(s + t) == [first] + Decode(s[n..] + t);
      Assoc([first], Decode(s[n..]), Decode(t));
    }
  }

  lemma SpellDecodes(b: Byte)
    ensures DecodesTo(Spell(b), [b])
  {
    if Unreserved(b as char) {
      assert Spell(b)[1..] == [];
    } else {
      PercentDecodes(b);
    }
  }

  lemma {:induction false} SpellAllDecodes(id: seq<Byte>)
    ensures DecodesTo(SpellAll(id), id)
  {
    if id != [] {
      var n := |id| - 1;
      SpellAllDecodes(id[..n]);
      SpellDecodes(id[n]);
      DecodeConcat(SpellAll(id[..n]), Spell(id[n]));
      assert id == id[..n] + [id[n]];
    }
  }

  /** What a byte is spelled as ends with a dot only for the dot itself. */
  lemma LastOfSpelling(id: seq<Byte>)
    requires id != []
    ensures var s := SpellAll(id); s != [] && (s[|s| - 1] == '.' <==> id[|id| - 1] == 46)
    ensures id[|id| - 1] == 46 ==> SpellAll(id)[..|SpellAll(id)| - 1] == SpellAll(id[..|id| - 1])
  {
    var before, last := SpellAll(id[..|id| - 1]), Spell(id[|id| - 1]);
    assert (before + last)[|before + last| - 1] == last[|last| - 1];
  }

  lemma {:induction false} EscapeEndDecodes(id: seq<Byte>)
    ensures DecodesTo(EscapeEnd(SpellAll(id)), id)
  {
    SpellAllDecodes(id);
    if id != [] {
      var n := |id| - 1;
      LastOfSpelling(id);
      if id[n] == 46 {
        EscapeEndDecodes(id[..n]);
        assert ESCAPED_DOT == Percent(46);
        PercentDecodes(46);
        DecodeConcat(EscapeEnd(SpellAll(id[..n])), ESCAPED_DOT);
        assert id == id[..n] + [id[n]];
      }
    }
  }

  /** Escaping a run of nothing but dots is escaping the run at the end. */
  lemma {:induction false} AllDotsIsEnd(s: string)
    requires forall i :: 0 <= i < |s| ==> s[i] == '.'
    ensures EscapeAllDots(s) == EscapeEnd(s)
  {
    if s != [] {
      AllDotsIsEnd(s[..|s| - 1]);
    }
  }

  lemma FirstOfDevice(s: string)
    requires NamesDevice(s)
    ensures |s| > 2 && 'a' <= Lower(s[0]) <= 'z'
  {
    var k :| 0 < k <= |s| && IsDevice(s[..k]) && (k == |s| || s[k] == '.');
    assert s[..k][0] == s[0];
    if |s[..k]| == 4 {
      assert s[..k][..3][0] == s[0];
    }
  }

  /** Reading back the directory name of an id gives the id. */
  lemma RoundTrip(id: seq<Byte>)
    ensures DecodesTo(Encode(id), id)
  {
    var out := SpellAll(id);
    var s := EscapeEnd(out);
    EscapeEndDecodes(id);
    if AllDots(out) {
      AllDotsIsEnd(out);
    } else if NamesDevice(s) {
      FirstOfDevice(s);
      FirstEscaped(s);
    }
  }

  /** Spelling out a first character that needs no spelling changes nothing. */
  lemma FirstEscaped(s: string)
    requires s != [] && s[0] != '%' && s[0] as int < 256 && Decodable(s)
    ensures DecodesTo(Percent(s[0] as int) + s[1..], Decode(s))
  {
    PercentDecodes(s[0] as int);
    DecodeConcat(Percent(s[0] as int), s[1..]);
  }

  /** On the ids themselves, with any UTF-8 codec that reads back what it wrote. */
  lemma StringRoundTrip(utf8: string -> seq<Byte>, parse: seq<Byte> -> Option<string>, id: string)
    requires parse(utf8(id)) == Some(id)
    ensures Decodable(Encode(utf8(id))) && parse(Decode(Encode(utf8(id)))) == Some(id)
  {
    RoundTrip(utf8(id));
  }

  /** Different ids get different directory names. */
  lemma EncodeInjective(a: seq<Byte>, b: seq<Byte>)
    requires Encode(a) == Encode(b)
    ensures a == b
  {
    RoundTrip(a);
    RoundTrip(b);
  }

  // --- one path segment ------------------------------------------------------------------------

  predicate InAlphabet(s: string) {
    forall i :: 0 <= i < |s| ==> Unreserved(s[i]) || s[i] == '%'
  }

  lemma {:induction false} SpellAllAlphabet(id: seq<Byte>)
    ensures InAlphabet(SpellAll(id)) && (id != [] ==> SpellAll(id) != [])
  {
    if id != [] {
      SpellAllAlphabet(id[..|id| - 1]);
    }
  }

  lemma {:induction false} EscapeEndAlphabet(s: string)
    requires InAlphabet(s)
    ensures InAlphabet(EscapeEnd(s)) && |EscapeEnd(s)| >= |s| && (s != [] ==> EscapeEnd(s)[|EscapeEnd(s)| - 1] != '.')
  {
    if s != [] && s[|s| - 1] == '.' {
      EscapeEndAlphabet(s[..|s| - 1]);
    }
  }

  lemma PercentNamesNoDevice(b: Byte, t: string)
    ensures !NamesDevice(Percent(b) + t)
  {
    if NamesDevice(Percent(b) + t) {
      FirstOfDevice(Percent(b) + t);
    }
  }

  /** The name is one path segment on every platform. */
  predicate IsSegment(s: string) {
    && s != [] && InAlphabet(s) && s[|s| - 1] != '.' && s != "." && s != ".."
    && !NamesDevice(s) && '/' !in s && '\\' !in s && ':' !in s
  }

  lemma PlainIsSegment(s: string)
    requires s != [] && InAlphabet(s) && s[|s| - 1] != '.' && !NamesDevice(s)
    ensures IsSegment(s)
  {
    assert !Unreserved('/') && !Unreserved('\\') && !Unreserved(':');
    assert "."[0] == '.' && ".."[1] == '.';
  }

  lemma FirstSpelled(s: string)
    requires |s| > 1 && InAlphabet(s) && s[|s| - 1] != '.' && s[0] as int < 256
    ensures IsSegment(Percent(s[0] as int) + s[1..])
  {
    var r := Percent(s[0] as int) + s[1..];
    PercentNamesNoDevice(s[0] as int, s[1..]);
    assert r[|r| - 1] == s[|s| - 1];
    forall i | 0 <= i < |r|
      ensures Unreserved(r[i]) || r[i] == '%'
    {
      assert i >= 3 ==> r[i] == s[i - 2];
    }
    PlainIsSegment(r);
  }

  /** The directory name of an id is one path segment on every platform. */
  lemma EncodeIsSegment(id: seq<Byte>)
    requires id != []
    ensures IsSegment(Encode(id))
  {
    var out := SpellAll(id);
    var s := EscapeEnd(out);
    SpellAllAlphabet(id);
    EscapeEndAlphabet(out);
    if AllDots(out) {
      AllDotsIsEnd(out);
      DotsEscaped(out);
      PlainIsSegment(s);
    } else if NamesDevice(s) {
      FirstOfDevice(s);
      FirstSpelled(s);
    } else {
      PlainIsSegment(s);
    }
  }

  lemma {:induction false} DotsEscaped(s: string)
    requires AllDots(s)
    ensures !NamesDevice(EscapeEnd(s)) && EscapeEnd(s)[0] == '%'
  {
    if |s| > 1 {
      DotsEscaped(s[..|s| - 1]);
    } else {
      assert EscapeEnd(s[..0]) == [];
    }
    if NamesDevice(EscapeEnd(s)) {
      FirstOfDevice(EscapeEnd(s));
    }
  }

  // --- directories -----------------------------------------------------------------------------

  /** `join` of segments that need no normalising. */
  function Join(root: string, separator: char, segment: string): string {
    root + [separator] + segment
  }

  /** `engineCacheDir` */
  function CacheDir(cachesDir: string, separator: char, descriptor: seq<Byte>, model: seq<Byte>): string {
    Join(Join(cachesDir, separator, Encode(descriptor)), separator, Encode(model))
  }

  lemma {:induction false} SplitIsUnique(a: string, a': string, b: string, b': string, separator: char)
    requires separator !in a && separator !in a' && a + [separator] + b == a' + [separator] + b'
    ensures a == a' && b == b'
    decreases |a|
  {
    var s := a + [separator] + b;
    assert s[|a|] == separator && s[|a'|] == separator;
    assert forall i :: 0 <= i < |a| ==> s[i] == a[i];
    assert forall i :: 0 <= i < |a'| ==> s[i] == a'[i];
    assert |a| == |a'|;
    assert a == s[..|a|] == a';
    assert b == s[|a| + 1..] == b';
  }

  lemma CacheDirTail(cachesDir: string, separator: char, d: seq<Byte>, m: seq<Byte>)
    ensures CacheDir(cachesDir, separator, d, m) == cachesDir + [separator] + (Encode(d) + [separator] + Encode(m))
  {
  }

  /** Different (descriptor, model) pairs get different cache directories. */
  lemma CacheDirInjective(cachesDir: string, separator: char, d: seq<Byte>, m: seq<Byte>, d': seq<Byte>, m': seq<Byte>)
    requires separator == '/' || separator == '\\'
    requires d != [] && d' != [] && CacheDir(cachesDir, separator, d, m) == CacheDir(cachesDir, separator, d', m')
    ensures d == d' && m == m'
  {
    EncodeIsSegment(d);
    EncodeIsSegment(d');
    CacheDirTail(cachesDir, separator, d, m);
    CacheDirTail(cachesDir, separator, d', m');
    TailsAgree(cachesDir + [separator], Encode(d) + [separator] + Encode(m), Encode(d') + [separator] + Encode(m'));
    SplitIsUnique(Encode(d), Encode(d'), Encode(m), Encode(m'), separator);
    EncodeInjective(d, d');
    EncodeInjective(m, m');
  }

  lemma TailsAgree(root: string, a: string, b: string)
    requires root + a == root + b
    ensures a == b
  {
    assert (root + a)[|root|..] == a && (root + b)[|root|..] == b;
  }

  // --- the functions themselves ----------------------------------------------------------------

  /** `encodeManagedId` on the UTF-8 bytes of the id. */
  method EncodeManagedId(id: seq<Byte>) returns (r: Result<string, string>)
    ensures r.Err? <==> id == []
    ensures r.Ok? ==> r.value == Encode(id) && IsSegment(r.value) && DecodesTo(r.value, id)
  {
    if id == [] {
      return Err("A managed id cannot be empty.");
    }
    var out := "";
    for i := 0 to |id|
      invariant out == SpellAll(id[..i])
    {
      assert id[..i + 1][..i] == id[..i];
      var ch := id[i] as char;
      out := out + (if Unreserved(ch) then [ch] else Percent(id[i]));
    }
    assert id[..|id|] == id;
    EncodeIsSegment(id);
    RoundTrip(id);
    if AllDots(out) {
      return Ok(EscapeAllDots(out));
    }
    out := EscapeEnd(out);
    if NamesDevice(out) {
      FirstOfDevice(out);
      out := Percent(out[0] as int) + out[1..];
    }
    r := Ok(out);
  }

  /** Reading one character, or one escape, off the front. */
  lemma DecodeStep(bytes: seq<Byte>, s: string)
    requires s != [] && (s[0] == '%' ==> |s| >= 3 && IsHex(s[1]) && IsHex(s[2]))
    ensures var n := if s[0] != '%' then 1 else 3;
      var first: Byte := if s[0] != '%' then s[0] as int % 256 else PairValue(s[1], s[2]);
      && (Decodable(s) <==> Decodable(s[n..]))
      && (Decodable(s) ==> bytes + Decode(s) == bytes + [first] + Decode(s[n..]))
  {
    var n := if s[0] != '%' then 1 else 3;
    var first: Byte := if s[0] != '%' then s[0] as int % 256 else PairValue(s[1], s[2]);
    if Decodable(s) {
      Assoc(bytes, [first], Decode(s[n..]));
    }
  }

  /** `decodeManagedId` up to the UTF-8 decoder. */
  method DecodeManagedId(segment: string) returns (r: Result<seq<Byte>, string>)
    ensures r.Ok? <==> Decodable(segment)
    ensures r.Ok? ==> r.value == Decode(segment)
  {
    var bytes: seq<Byte> := [];
    var i: nat := 0;
    assert segment[0..] == segment;
    while i < |segment|
      invariant i <= |segment|
      invariant Decodable(segment[i..]) <==> Decodable(segment)
      invariant Decodable(segment) ==> bytes + Decode(segment[i..]) == Decode(segment)
    {
      if segment[i] != '%' {
        DecodeStep(bytes, segment[i..]);
        assert segment[i..][1..] == segment[i + 1..];
        bytes := bytes + [segment[i] as int % 256];
        i := i + 1;
      } else {
        if i + 2 >= |segment| || !IsHex(segment[i + 1]) || !IsHex(segment[i + 2]) {
          return Err("Not an encoded managed id");
        }
        DecodeStep(bytes, segment[i..]);
        assert segment[i..][3..] == segment[i + 3..];
        bytes := bytes + [PairValue(segment[i + 1], segment[i + 2])];
        i := i + 3;
      }
    }
    r := Ok(bytes);
  }
}
