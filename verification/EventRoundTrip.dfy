// What the control server writes (src/server/control/routes/lifecycle.ts) is what the control client
// reads (src/client/control-client.ts), however the connection cuts it into chunks.

module EventRoundTrip {
  import opened Options
  import opened Text
  import opened Splitting
  import opened EventStreams

  // --- trimming --------------------------------------------------------------------------------

  lemma TrimSpaced(s: string)
    requires Trimmed(s)
    ensures Trim([' '] + s) == s
  {
    assert IsSpace(' ');
    assert ([' '] + s)[1..] == s;
    assert TrimStart([' '] + s) == TrimStart(s) == s;
  }

  // --- one frame -------------------------------------------------------------------------------

  /** Three lines, as one frame of the stream. */
  function Frame3(a: string, b: string, c: string): string {
    a + NL + b + NL + c
  }

  lemma LinesOfFrame(a: string, b: string, c: string)
    requires OneLine(a) && OneLine(b) && OneLine(c)
    ensures Lines(Frame3(a, b, c)) == [a, b, c]
  {
    NewlineEnds(a);
    NewlineEnds(b);
    OneLineNoSep(c);
    assert Glue([b], NL) == b + NL + Glue([], NL) by { assert [b][1..] == []; }
    assert Glue([a, b], NL) == a + NL + Glue([b], NL) by { assert [a, b][1..] == [b]; }
    assert Frame3(a, b, c) == Glue([a, b], NL) + c;
    SplitUnique(Frame3(a, b, c), NL, [a, b], c);
  }

  /** The blank line after a frame of three non-empty lines is the first one. */
  lemma BlankEnds(a: string, b: string, c: string)
    requires OneLine(a) && OneLine(b) && OneLine(c) && b != [] && c != []
    ensures FirstSep(Frame3(a, b, c) + BLANK, BLANK, |Frame3(a, b, c)|)
  {
    var f := Frame3(a, b, c);
    var t := f + BLANK;
    assert t[|f|..|f| + 2] == BLANK;
    forall j: nat | j < |f|
      ensures !SepAt(t, BLANK, j)
    {
      NewlineAt(a, b, c, j);
      NewlineAt(a, b, c, j + 1);
      assert t[j..j + 2][0] == t[j] && t[j..j + 2][1] == t[j + 1];
    }
  }

  /** Where the newlines of a frame are. */
  lemma NewlineAt(a: string, b: string, c: string, j: nat)
    requires OneLine(a) && OneLine(b) && OneLine(c) && j <= |Frame3(a, b, c)|
    ensures (Frame3(a, b, c) + BLANK)[j] == '\n' <==> j == |a| || j == |a| + 1 + |b| || j == |Frame3(a, b, c)|
  {
    var t := Frame3(a, b, c) + BLANK;
    if j < |a| {
      assert t[j] == a[j];
    } else if |a| < j < |a| + 1 + |b| {
      assert t[j] == b[j - |a| - 1];
    } else if |a| + 1 + |b| < j < |Frame3(a, b, c)| {
      assert t[j] == c[j - |a| - |b| - 2];
    }
  }

  // --- a message -------------------------------------------------------------------------------

  /** `JSON.stringify` and `JSON.parse`, of which only this much is used. */
  datatype Codec<!J> = Codec(stringify: J -> string, parse: string -> Option<J>)

  ghost predicate GoodCodec<J(!new)>(codec: Codec<J>) {
    forall j: J :: codec.parse(codec.stringify(j)) == Some(j) && OneLine(codec.stringify(j)) && Trimmed(codec.stringify(j))
  }

  /** What the server sends: an event, or a heartbeat comment. */
  datatype Item<J> = Event(id: string, name: string, data: J) | Heartbeat

  predicate GoodItem<J>(item: Item<J>) {
    item.Event? ==> OneLine(item.id) && Trimmed(item.id) && OneLine(item.name) && Trimmed(item.name) && item.name != ""
  }

  function Field(name: string, value: string): string {
    name + [' '] + value
  }

  /** `sseFrame`, without the blank line that ends it. */
  function EventFrame(id: string, name: string, json: string): string {
    Frame3(Field("id:", id), Field("event:", name), Field("data:", json))
  }

  lemma FieldReads(name: string, value: string)
    requires Trimmed(value)
    ensures StartsWith(Field(name, value), name) && Trim(Field(name, value)[|name|..]) == value
  {
    assert Field(name, value)[|name|..] == [' '] + value;
    TrimSpaced(value);
  }

  lemma LastOfMore(lines: seq<string>, line: string, name: string)
    ensures LastField(lines + [line], name) == if StartsWith(line, name) then Trim(line[|name|..]) else LastField(lines, name)
  {
    assert (lines + [line])[..|lines|] == lines;
  }

  lemma LastOfThree(a: string, b: string, c: string, name: string)
    ensures LastField([a, b, c], name) ==
      if StartsWith(c, name) then Trim(c[|name|..])
      else if StartsWith(b, name) then Trim(b[|name|..])
      else if StartsWith(a, name) then Trim(a[|name|..])
      else ""
  {
    LastOfMore([a, b], c, name);
    LastOfMore([a], b, name);
    LastOfMore([], a, name);
    assert [a, b] + [c] == [a, b, c] && [a] + [b] == [a, b] && [] + [a] == [a];
  }

  lemma DataOfThree(a: string, b: string, c: string)
    requires !StartsWith(a, "data:") && !StartsWith(b, "data:") && StartsWith(c, "data:")
    ensures DataLines([a, b, c]) == [Trim(c[5..])]
  {
    assert [a, b, c][..2] == [a, b] && [a, b][..1] == [a] && [a][..0] == [];
    assert DataLines([a, b]) == DataLines([a]) + [];
  }

  /** A frame the server wrote reads as the event it was written for. */
  lemma EventReads<J(!new)>(codec: Codec<J>, id: string, name: string, data: J)
    requires GoodCodec(codec) && GoodItem(Event(id, name, data))
    ensures FrameMessage(EventFrame(id, name, codec.stringify(data)), codec.parse) == Some(Message(id, name, Parsed(data)))
  {
    var json := codec.stringify(data);
    var a, b, c := Field("id:", id), Field("event:", name), Field("data:", json);
    assert OneLine("id:") && OneLine("event:") && OneLine("data:");
    LinesOfFrame(a, b, c);
    FieldReads("id:", id);
    FieldReads("event:", name);
    FieldReads("data:", json);
    NamesExclude(a);
    NamesExclude(b);
    NamesExclude(c);
    LastOfThree(a, b, c, "id:");
    LastOfThree(a, b, c, "event:");
    DataOfThree(a, b, c);
    assert |"data:"| == 5;
    assert JoinLines([json]) == json;
  }

  // --- the stream ------------------------------------------------------------------------------

  const PING := ": ping"

  function FrameOf<J>(codec: Codec<J>, item: Item<J>): string {
    if item.Heartbeat? then PING else EventFrame(item.id, item.name, codec.stringify(item.data))
  }

  function FramesOf<J>(codec: Codec<J>, items: seq<Item<J>>): (fs: seq<string>)
    ensures |fs| == |items|
  {
    seq(|items|, i requires 0 <= i < |items| => FrameOf(codec, items[i]))
  }

  /** Everything the server wrote. */
  function Wire<J>(codec: Codec<J>, items: seq<Item<J>>): string {
    Glue(FramesOf(codec, items), BLANK)
  }

  /** The events among what was sent. */
  function EventsOf<J>(items: seq<Item<J>>): seq<Message<J>> {
    if items == [] then []
    else EventsOf(items[..|items| - 1]) + AsSeq(EventOf(items[|items| - 1]))
  }

  function EventOf<J>(item: Item<J>): Option<Message<J>> {
    if item.Heartbeat? then None else Some(Message(item.id, item.name, Parsed(item.data)))
  }

  lemma PingIsSilent<J>(parse: string -> Option<J>)
    ensures FrameMessage(PING, parse) == None
  {
    assert OneLine(PING);
    OneLineNoSep(PING);
    IndexOfIs(PING, NL);
    assert Lines(PING) == [PING];
    NamesExclude(PING);
    LastOfMore([], PING, "event:");
    assert [] + [PING] == [PING];
  }

  lemma PingEnds()
    ensures FirstSep(PING + BLANK, BLANK, |PING|)
  {
    var t := PING + BLANK;
    assert OneLine(PING);
    assert t[|PING|..|PING| + 2] == BLANK;
    forall j: nat | j < |PING|
      ensures !SepAt(t, BLANK, j)
    {
      assert t[j..j + 2][0] == PING[j];
    }
  }

  lemma FrameReads<J(!new)>(codec: Codec<J>, item: Item<J>)
    requires GoodCodec(codec) && GoodItem(item)
    ensures FrameMessage(FrameOf(codec, item), codec.parse) == EventOf(item)
    ensures FirstSep(FrameOf(codec, item) + BLANK, BLANK, |FrameOf(codec, item)|)
  {
    if item.Heartbeat? {
      PingIsSilent(codec.parse);
      PingEnds();
    } else {
      var json := codec.stringify(item.data);
      EventReads(codec, item.id, item.name, item.data);
      assert OneLine("id:") && OneLine("event:") && OneLine("data:");
      BlankEnds(Field("id:", item.id), Field("event:", item.name), Field("data:", json));
    }
  }

  lemma {:induction false} CollectReads<J(!new)>(codec: Codec<J>, items: seq<Item<J>>)
    requires GoodCodec(codec) && forall i :: 0 <= i < |items| ==> GoodItem(items[i])
    ensures Collect(FramesOf(codec, items), FrameReader(codec.parse)) == EventsOf(items)
  {
    if items != [] {
      var n := |items| - 1;
      CollectReads(codec, items[..n]);
      assert FramesOf(codec, items)[..n] == FramesOf(codec, items[..n]);
      FrameReads(codec, items[n]);
    }
  }

  /** The client is handed exactly the events the server sent, in order, for any chunking. */
  lemma StreamRoundTrip<J(!new)>(codec: Codec<J>, items: seq<Item<J>>, chunks: seq<string>)
    requires GoodCodec(codec) && forall i :: 0 <= i < |items| ==> GoodItem(items[i])
    requires Concat(chunks) == Wire(codec, items)
    ensures StreamMessages(Concat(chunks), codec.parse) == EventsOf(items)
  {
    var fs := FramesOf(codec, items);
    forall i | 0 <= i < |fs|
      ensures FirstSep(fs[i] + BLANK, BLANK, |fs[i]|)
    {
      FrameReads(codec, items[i]);
    }
    assert Glue(fs, BLANK) + [] == Glue(fs, BLANK);
    SplitUnique(Wire(codec, items), BLANK, fs, []);
    CollectReads(codec, items);
  }
}
