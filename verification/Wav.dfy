// The header walk over a RIFF/WAVE file (src/audio/wav.ts), from the whole file or from its first bytes
// and its size. Chunks are padded to an even length, as chapter 2 of the IBM/Microsoft Multimedia
// Programming Interface and Data Specifications 1.0 has it.

module Wav {
  import opened Options
  import opened Text

  datatype WavInfo = WavInfo(sampleRate: nat, channels: nat, bitsPerSample: nat, dataBytes: nat, audioMs: nat)

  datatype Format = Format(channels: nat, sampleRate: nat, byteRate: nat, bitsPerSample: nat)

  const RIFF: seq<Byte> := [0x52, 0x49, 0x46, 0x46]
  const WAVE: seq<Byte> := [0x57, 0x41, 0x56, 0x45]
  const FMT: seq<Byte> := [0x66, 0x6d, 0x74, 0x20]
  const DATA: seq<Byte> := [0x64, 0x61, 0x74, 0x61]

  // --- reading -----------------------------------------------------------------------------------

  function U16(b: seq<Byte>, at: nat): nat
    requires at + 2 <= |b|
  {
    b[at] as int + 0x100 * (b[at + 1] as int)
  }

  function U32(b: seq<Byte>, at: nat): (n: nat)
    requires at + 4 <= |b|
    ensures n <= 0xffff_ffff
  {
    b[at] as int + 0x100 * (b[at + 1] as int) + 0x1_0000 * (b[at + 2] as int) + 0x100_0000 * (b[at + 3] as int)
  }

  predicate HasId(b: seq<Byte>, at: nat, id: seq<Byte>) {
    at + 4 <= |b| && b[at..at + 4] == id
  }

  function SizeOf(b: seq<Byte>, at: nat): nat
    requires at + 8 <= |b|
  {
    U32(b, at + 4)
  }

  /** Where the chunk after this one starts. */
  function After(b: seq<Byte>, at: nat): (next: nat)
    requires at + 8 <= |b|
    ensures next >= at + 8
  {
    at + 8 + SizeOf(b, at) + SizeOf(b, at) % 2
  }

  // --- what a WAV header is ------------------------------------------------------------------------

  /** The offset after these chunks, which follow each other from offset 12. */
  predicate Chain(b: seq<Byte>, ps: seq<nat>, end: nat) {
    if ps == [] then end == 12
    else
      var last := ps[|ps| - 1];
      Chain(b, ps[..|ps| - 1], last) && last + 8 <= |b| && end == After(b, last)
  }

  /** A `fmt ` chunk long enough to be one. */
  predicate GoodFormat(b: seq<Byte>, at: nat)
    requires at + 8 <= |b|
  {
    SizeOf(b, at) >= 16 && at + 24 <= |b|
  }

  function FormatAt(b: seq<Byte>, at: nat): Format
    requires at + 24 <= |b|
  {
    Format(U16(b, at + 10), U32(b, at + 12), U32(b, at + 16), U16(b, at + 22))
  }

  /** A chunk that is not `data`, and is well formed if it is `fmt `. */
  predicate Passable(b: seq<Byte>, at: nat) {
    at + 8 <= |b| && !HasId(b, at, DATA) && (HasId(b, at, FMT) ==> GoodFormat(b, at))
  }

  /** None of these chunks is `data`, and every `fmt ` among them is well formed. */
  predicate BeforeData(b: seq<Byte>, ps: seq<nat>) {
    ps == [] || (Passable(b, ps[|ps| - 1]) && BeforeData(b, ps[..|ps| - 1]))
  }

  /** The last `fmt ` among these chunks. */
  function LastFormat(b: seq<Byte>, ps: seq<nat>): Option<Format>
    requires BeforeData(b, ps)
  {
    if ps == [] then None
    else
      var last := ps[|ps| - 1];
      if HasId(b, last, FMT) then Some(FormatAt(b, last)) else LastFormat(b, ps[..|ps| - 1])
  }

  predicate Plays(f: Format) {
    f.channels != 0 && f.sampleRate != 0 && f.byteRate != 0
  }

  /** Bytes of sample data: what the chunk says, or what is left of the file. */
  function DataBytes(size: nat, body: nat, fileSize: nat): (n: nat)
    ensures n <= fileSize && (body <= fileSize ==> body + n <= fileSize) && (size < 0xffff_ffff ==> n <= size)
  {
    var available := if body <= fileSize then fileSize - body else 0;
    if size == 0xffff_ffff || size > available then available else size
  }

  /** Milliseconds, rounded half up. */
  function Millis(dataBytes: nat, byteRate: nat): nat
    requires byteRate != 0
  {
    (2000 * dataBytes + byteRate) / (2 * byteRate)
  }

  function InfoOf(f: Format, size: nat, body: nat, fileSize: nat): WavInfo
    requires Plays(f)
  {
    var dataBytes := DataBytes(size, body, fileSize);
    WavInfo(f.sampleRate, f.channels, f.bitsPerSample, dataBytes, Millis(dataBytes, f.byteRate))
  }

  predicate IsRiff(b: seq<Byte>) {
    |b| >= 12 && HasId(b, 0, RIFF) && HasId(b, 8, WAVE)
  }

  /**
   * `info` is what the header says: chunks `ps`, none of them `data`, lead to a `data` chunk at `at`,
   * and the last `fmt ` before that can be played.
   */
  predicate IsHeader(b: seq<Byte>, fileSize: nat, ps: seq<nat>, at: nat, info: WavInfo) {
    && IsRiff(b) && Chain(b, ps, at) && BeforeData(b, ps) && at + 8 <= |b| && HasId(b, at, DATA)
    && LastFormat(b, ps).Some? && Plays(LastFormat(b, ps).value)
    && info == InfoOf(LastFormat(b, ps).value, SizeOf(b, at), at + 8, fileSize)
  }

  // --- the walk finds the header -----------------------------------------------------------------

  lemma DataIsNotFormat(b: seq<Byte>, at: nat)
    requires HasId(b, at, DATA)
    ensures !HasId(b, at, FMT)
  {
    assert DATA[0] != FMT[0];
  }

  lemma FormatIsNotData(b: seq<Byte>, at: nat)
    requires HasId(b, at, FMT)
    ensures !HasId(b, at, DATA)
  {
    assert DATA[0] != FMT[0];
  }

  lemma Found(b: seq<Byte>, fileSize: nat, ps: seq<nat>, at: nat)
    requires IsRiff(b) && Chain(b, ps, at) && BeforeData(b, ps) && at + 8 <= |b| && HasId(b, at, DATA)
    requires LastFormat(b, ps).Some? && Plays(LastFormat(b, ps).value)
    ensures HeaderSays(b, fileSize, InfoOf(LastFormat(b, ps).value, SizeOf(b, at), at + 8, fileSize))
  {
    assert IsHeader(b, fileSize, ps, at, InfoOf(LastFormat(b, ps).value, SizeOf(b, at), at + 8, fileSize));
  }

  /** Chunks walked without meeting `data` are where every header's chunks begin. */
  lemma {:induction false} WalkIsPrefix(b: seq<Byte>, fileSize: nat, ps: seq<nat>, end: nat, hs: seq<nat>, at: nat, info: WavInfo)
    requires Chain(b, ps, end) && BeforeData(b, ps) && IsHeader(b, fileSize, hs, at, info)
    ensures |ps| <= |hs| && hs[..|ps|] == ps && (|ps| == |hs| ==> ps == hs)
    ensures end == (if |ps| < |hs| then hs[|ps|] else at)
    decreases |ps|
  {
    if ps == [] {
      ChainStarts(b, hs, at);
    } else {
      var n := |ps| - 1;
      WalkIsPrefix(b, fileSize, ps[..n], ps[n], hs, at, info);
      assert ps == ps[..n] + [ps[n]];
      assert n < |hs|;
      assert hs[..n + 1] == hs[..n] + [hs[n]];
      ChainAt(b, hs, at, n);
    }
  }

  lemma {:induction false} PassableAt(b: seq<Byte>, ps: seq<nat>, i: nat)
    requires BeforeData(b, ps) && i < |ps|
    ensures Passable(b, ps[i])
    decreases |ps|
  {
    if i < |ps| - 1 {
      PassableAt(b, ps[..|ps| - 1], i);
    }
  }

  lemma {:induction false} ChainStarts(b: seq<Byte>, ps: seq<nat>, end: nat)
    requires Chain(b, ps, end)
    ensures (if ps == [] then end else ps[0]) == 12
    decreases |ps|
  {
    if |ps| > 0 {
      ChainStarts(b, ps[..|ps| - 1], ps[|ps| - 1]);
    }
  }

  lemma {:induction false} ChainAt(b: seq<Byte>, ps: seq<nat>, end: nat, i: nat)
    requires Chain(b, ps, end) && i < |ps|
    ensures ps[i] + 8 <= |b| && After(b, ps[i]) == (if i + 1 < |ps| then ps[i + 1] else end)
    decreases |ps|
  {
    var n := |ps| - 1;
    if i < n {
      ChainAt(b, ps[..n], ps[n], i);
    }
  }

  /** A file has at most one header. */
  lemma HeaderIsUnique(b: seq<Byte>, fileSize: nat, ps: seq<nat>, at: nat, info: WavInfo, ps': seq<nat>, at': nat, info': WavInfo)
    requires IsHeader(b, fileSize, ps, at, info) && IsHeader(b, fileSize, ps', at', info')
    ensures ps == ps' && at == at' && info == info'
  {
    WalkIsPrefix(b, fileSize, ps, at, ps', at', info');
    WalkIsPrefix(b, fileSize, ps', at', ps, at, info);
  }

  /** There is a header, and it says this; its data is within the file. */
  ghost predicate HeaderSays(b: seq<Byte>, fileSize: nat, info: WavInfo) {
    && info.dataBytes <= fileSize
    && exists ps: seq<nat>, at: nat :: IsHeader(b, fileSize, ps, at, info)
  }

  /** No header: the bytes are not a PCM-style WAV. */
  ghost predicate NoHeader(b: seq<Byte>, fileSize: nat) {
    forall ps: seq<nat>, at: nat, info: WavInfo :: !IsHeader(b, fileSize, ps, at, info)
  }

  /** The walk cannot go on, so there is no header. */
  lemma WalkStops(b: seq<Byte>, fileSize: nat, ps: seq<nat>, end: nat)
    requires Chain(b, ps, end) && BeforeData(b, ps)
    requires
      || end + 8 > |b|
      || (HasId(b, end, FMT) && !GoodFormat(b, end))
      || (HasId(b, end, DATA) && (LastFormat(b, ps).None? || !Plays(LastFormat(b, ps).value)))
    ensures NoHeader(b, fileSize)
  {
    forall hs: seq<nat>, at: nat, info: WavInfo
      ensures !IsHeader(b, fileSize, hs, at, info)
    {
      if IsHeader(b, fileSize, hs, at, info) {
        DataIsNotFormat(b, at);
        WalkIsPrefix(b, fileSize, ps, end, hs, at, info);
        if |ps| < |hs| {
          PassableAt(b, hs, |ps|);
        }
      }
    }
  }

  lemma WalkOn(b: seq<Byte>, ps: seq<nat>, at: nat)
    requires Chain(b, ps, at) && BeforeData(b, ps) && at + 8 <= |b| && !HasId(b, at, DATA)
    requires HasId(b, at, FMT) ==> GoodFormat(b, at)
    ensures Chain(b, ps + [at], After(b, at)) && BeforeData(b, ps + [at])
    ensures LastFormat(b, ps + [at]) == if HasId(b, at, FMT) then Some(FormatAt(b, at)) else LastFormat(b, ps)
  {
    Parts(ps, [at]);
  }

  lemma NotRiff(b: seq<Byte>, fileSize: nat)
    requires !IsRiff(b)
    ensures NoHeader(b, fileSize)
  {
  }

  /** `parseWav`: the header, or nothing exactly when there is none; every read is in bounds. */
  method ParseWav(b: seq<Byte>, fileSize: nat) returns (r: Option<WavInfo>)
    ensures if r.Some? then HeaderSays(b, fileSize, r.value) else NoHeader(b, fileSize)
  {
    if |b| < 12 || b[0..4] != RIFF || b[8..12] != WAVE {
      NotRiff(b, fileSize);
      return None;
    }
    var at: nat := 12;
    var format: Option<Format> := None;
    ghost var ps: seq<nat> := [];
    while at + 8 <= |b|
      invariant Chain(b, ps, at) && BeforeData(b, ps) && format == LastFormat(b, ps)
      decreases |b| - at
    {
      var id, size, body := b[at..at + 4], U32(b, at + 4), at + 8;
      if id == FMT {
        if size < 16 || body + 16 > |b| {
          WalkStops(b, fileSize, ps, at);
          return None;
        }
        FormatIsNotData(b, at);
        format := Some(Format(U16(b, body + 2), U32(b, body + 4), U32(b, body + 8), U16(b, body + 14)));
      } else if id == DATA {
        if format.None? || !Plays(format.value) {
          WalkStops(b, fileSize, ps, at);
          return None;
        }
        Found(b, fileSize, ps, at);
        return Some(InfoOf(format.value, size, body, fileSize));
      }
      WalkOn(b, ps, at);
      ps, at := ps + [at], body + size + size % 2;
    }
    WalkStops(b, fileSize, ps, at);
    r := None;
  }

  // --- the start of a file says as much as the file ----------------------------------------------

  lemma SameReads(b: seq<Byte>, n: nat, at: nat)
    requires n <= |b| && at + 8 <= n
    ensures SizeOf(b[..n], at) == SizeOf(b, at) && After(b[..n], at) == After(b, at)
    ensures HasId(b[..n], at, FMT) == HasId(b, at, FMT) && HasId(b[..n], at, DATA) == HasId(b, at, DATA)
    ensures at + 24 <= n ==> FormatAt(b[..n], at) == FormatAt(b, at)
  {
    assert b[..n][at..at + 4] == b[at..at + 4];
  }

  lemma {:induction false} ChainOfStart(b: seq<Byte>, n: nat, ps: seq<nat>, end: nat)
    requires n <= |b| && Chain(b[..n], ps, end) && BeforeData(b[..n], ps)
    ensures Chain(b, ps, end) && BeforeData(b, ps) && LastFormat(b[..n], ps) == LastFormat(b, ps)
    decreases |ps|
  {
    if ps != [] {
      var m := |ps| - 1;
      ChainOfStart(b, n, ps[..m], ps[m]);
      SameReads(b, n, ps[m]);
    }
  }

  lemma {:induction false} ChainInStart(b: seq<Byte>, n: nat, ps: seq<nat>, end: nat)
    requires n <= |b| && Chain(b, ps, end) && BeforeData(b, ps) && end <= n
    ensures Chain(b[..n], ps, end) && BeforeData(b[..n], ps)
    decreases |ps|
  {
    if ps != [] {
      var m := |ps| - 1;
      ChainInStart(b, n, ps[..m], ps[m]);
      SameReads(b, n, ps[m]);
    }
  }

  /** Whatever the first bytes of a file say, the whole file says. */
  lemma StartIsNeverWrong(b: seq<Byte>, n: nat, ps: seq<nat>, at: nat, info: WavInfo)
    requires n <= |b| && IsHeader(b[..n], |b|, ps, at, info)
    ensures IsHeader(b, |b|, ps, at, info)
  {
    ChainOfStart(b, n, ps, at);
    SameReads(b, n, at);
    assert b[..n][0..4] == b[0..4] && b[..n][8..12] == b[8..12];
  }

  /** ... and they say it exactly when the header of the `data` chunk is among them. */
  lemma StartSuffices(b: seq<Byte>, n: nat, ps: seq<nat>, at: nat, info: WavInfo)
    requires n <= |b| && IsHeader(b, |b|, ps, at, info)
    ensures at + 8 <= n <==> exists ps': seq<nat>, at': nat, info': WavInfo :: IsHeader(b[..n], |b|, ps', at', info')
    ensures at + 8 <= n ==> IsHeader(b[..n], |b|, ps, at, info)
  {
    if at + 8 <= n {
      ChainInStart(b, n, ps, at);
      ChainOfStart(b, n, ps, at);
      SameReads(b, n, at);
      ChainEndsLate(b, ps, at);
      assert b[..n][0..4] == b[0..4] && b[..n][8..12] == b[8..12];
      assert IsHeader(b[..n], |b|, ps, at, info);
    } else {
      forall ps': seq<nat>, at': nat, info': WavInfo
        ensures !IsHeader(b[..n], |b|, ps', at', info')
      {
        if IsHeader(b[..n], |b|, ps', at', info') {
          StartIsNeverWrong(b, n, ps', at', info');
          HeaderIsUnique(b, |b|, ps, at, info, ps', at', info');
        }
      }
    }
  }

  lemma {:induction false} ChainEndsLate(b: seq<Byte>, ps: seq<nat>, end: nat)
    requires Chain(b, ps, end)
    ensures end >= 12
    decreases |ps|
  {
    if ps != [] {
      ChainEndsLate(b, ps[..|ps| - 1], ps[|ps| - 1]);
    }
  }
}
