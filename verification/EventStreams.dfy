// The two readers of server-sent events: the event subscription of the control client
// (src/client/control-client.ts) and the line reader of the ChatGPT backend (src/cloud/chatgpt.ts).
// Both keep the decoded text that is not finished yet; neither depends on where the chunks break.

module EventStreams {
  import opened Options
  import opened Text
  import opened Splitting

  // --- a frame of the event stream -------------------------------------------------------------

  datatype Data<J> = Absent | Parsed(value: J) | Raw(text: string)

  datatype Message<J> = Message(id: string, event: string, data: Data<J>)

  const BLANK := "\n\n"

  /** The trimmed value of the last line with this field name. */
  function LastField(lines: seq<string>, name: string): string {
    if lines == [] then ""
    else
      var line := lines[|lines| - 1];
      if StartsWith(line, name) then Trim(line[|name|..]) else LastField(lines[..|lines| - 1], name)
  }

  function DataLines(lines: seq<string>): seq<string> {
    if lines == [] then []
    else
      var line := lines[|lines| - 1];
      DataLines(lines[..|lines| - 1]) + (if StartsWith(line, "data:") then [Trim(line[5..])] else [])
  }

  function DataOf<J>(lines: seq<string>, parse: string -> Option<J>): Data<J> {
    if lines == [] then Absent
    else
      var text := JoinLines(lines);
      if parse(text).Some? then Parsed(parse(text).value) else Raw(text)
  }

  /** The message of a frame: its last id and event, its data lines together; none without an event. */
  function FrameMessage<J>(frame: string, parse: string -> Option<J>): Option<Message<J>> {
    var lines := Lines(frame);
    var event := LastField(lines, "event:");
    if event == "" then None else Some(Message(LastField(lines, "id:"), event, DataOf(DataLines(lines), parse)))
  }

  /** No line has two of the field names, and a comment has none. */
  lemma NamesExclude(line: string)
    ensures StartsWith(line, ":") ==> !StartsWith(line, "id:") && !StartsWith(line, "event:") && !StartsWith(line, "data:")
    ensures StartsWith(line, "id:") ==> !StartsWith(line, "event:") && !StartsWith(line, "data:")
    ensures StartsWith(line, "event:") ==> !StartsWith(line, "data:")
  {
    assert ":"[0] == ':' && "id:"[0] == 'i' && "event:"[0] == 'e' && "data:"[0] == 'd';
  }

  /** `parseFrame` */
  method ParseFrame<J>(frame: string, parse: string -> Option<J>) returns (message: Option<Message<J>>)
    ensures message == FrameMessage(frame, parse)
  {
    var id, event := "", "";
    var dataLines: seq<string> := [];
    var lines := Lines(frame);
    for i := 0 to |lines|
      invariant id == LastField(lines[..i], "id:") && event == LastField(lines[..i], "event:")
      invariant dataLines == DataLines(lines[..i])
    {
      var line := lines[i];
      NamesExclude(line);
      assert lines[..i + 1][..i] == lines[..i] && lines[..i + 1][i] == line;
      if StartsWith(line, ":") {
        continue;
      }
      if StartsWith(line, "id:") {
        id := Trim(line[3..]);
      } else if StartsWith(line, "event:") {
        event := Trim(line[6..]);
      } else if StartsWith(line, "data:") {
        dataLines := dataLines + [Trim(line[5..])];
      }
    }
    assert lines[..|lines|] == lines;
    message := if event == "" then None else Some(Message(id, event, DataOf(dataLines, parse)));
  }

  // --- reading chunk by chunk ------------------------------------------------------------------

  function Concat(chunks: seq<string>): string {
    if chunks == [] then [] else Concat(chunks[..|chunks| - 1]) + chunks[|chunks| - 1]
  }

  function AsSeq<T>(o: Option<T>): seq<T> {
    if o.Some? then [o.value] else []
  }

  /** What the pieces of a text give, in order. */
  function Collect<T>(pieces: seq<string>, read: string -> Option<T>): seq<T> {
    if pieces == [] then [] else Collect(pieces[..|pieces| - 1], read) + AsSeq(read(pieces[|pieces| - 1]))
  }

  lemma {:induction false} CollectAppend<T>(a: seq<string>, b: seq<string>, read: string -> Option<T>)
    ensures Collect(a + b, read) == Collect(a, read) + Collect(b, read)
    decreases |b|
  {
    if b == [] {
      assert a + b == a;
    } else {
      var init, last := b[..|b| - 1], b[|b| - 1];
      CollectAppend(a, init, read);
      assert (a + b)[..|a + b| - 1] == a + init && (a + b)[|a + b| - 1] == last;
      Assoc(Collect(a, read), Collect(init, read), AsSeq(read(last)));
    }
  }

  lemma CollectOne<T>(piece: string, read: string -> Option<T>)
    ensures Collect([piece], read) == AsSeq(read(piece))
  {
    assert [piece][..0] == [];
  }

  /** What the finished pieces of a text give. */
  function Finished<T>(s: string, sep: string, read: string -> Option<T>): seq<T>
    requires sep != []
  {
    Collect(Frames(s, sep), read)
  }

  /** One turn of an inner loop: the first finished piece is read and cut off. */
  lemma FirstPiece<T>(before: seq<T>, buffer: string, sep: string, split: nat, read: string -> Option<T>)
    requires sep != [] && IndexOf(buffer, sep) == Some(split)
    ensures var tail := buffer[split + |sep|..];
      && before + Finished(buffer, sep, read) == before + AsSeq(read(buffer[..split])) + Finished(tail, sep, read)
      && Rest(buffer, sep) == Rest(tail, sep)
  {
    var piece, tail := buffer[..split], buffer[split + |sep|..];
    SplitUnfold(buffer, sep, split);
    CollectAppend([piece], Frames(tail, sep), read);
    CollectOne(piece, read);
    Assoc(before, AsSeq(read(piece)), Finished(tail, sep, read));
  }

  /** One turn of an outer loop: another chunk adds what it finishes. */
  lemma NextChunk<T>(s: string, chunk: string, sep: string, read: string -> Option<T>)
    requires sep != []
    ensures Finished(s + chunk, sep, read) == Finished(s, sep, read) + Finished(Rest(s, sep) + chunk, sep, read)
    ensures Rest(s + chunk, sep) == Rest(Rest(s, sep) + chunk, sep)
  {
    SplitAppend(s, chunk, sep);
    CollectAppend(Frames(s, sep), Frames(Rest(s, sep) + chunk, sep), read);
  }

  // --- the event subscription ------------------------------------------------------------------

  function FrameReader<J>(parse: string -> Option<J>): string -> Option<Message<J>> {
    frame => FrameMessage(frame, parse)
  }

  /** The messages of a whole stream: split on blank lines, the unfinished tail dropped. */
  function StreamMessages<J>(text: string, parse: string -> Option<J>): seq<Message<J>> {
    Finished(text, BLANK, FrameReader(parse))
  }

  /** The inner loop: hand over every finished frame of the buffer. */
  method ReadFrames<J>(text: string, parse: string -> Option<J>) returns (messages: seq<Message<J>>, buffer: string)
    ensures messages == StreamMessages(text, parse) && buffer == Rest(text, BLANK)
  {
    messages, buffer := [], text;
    var split := IndexOf(buffer, BLANK);
    while split.Some?
      invariant split == IndexOf(buffer, BLANK)
      invariant messages + StreamMessages(buffer, parse) == StreamMessages(text, parse)
      invariant Rest(buffer, BLANK) == Rest(text, BLANK)
      decreases |buffer|
    {
      ghost var before := messages;
      FirstPiece(before, buffer, BLANK, split.value, FrameReader(parse));
      var message := ParseFrame(buffer[..split.value], parse);
      if message.Some? {
        messages := messages + [message.value];
      }
      assert messages == before + AsSeq(message);
      buffer := buffer[split.value + 2..];
      split := IndexOf(buffer, BLANK);
    }
  }

  /** `CoreClient.events`: what `onEvent` sees, for any chunking of the text. */
  method ReadEvents<J>(chunks: seq<string>, parse: string -> Option<J>) returns (messages: seq<Message<J>>)
    ensures messages == StreamMessages(Concat(chunks), parse)
  {
    var buffer := "";
    messages := [];
    for i := 0 to |chunks|
      invariant messages == StreamMessages(Concat(chunks[..i]), parse) && buffer == Rest(Concat(chunks[..i]), BLANK)
    {
      assert chunks[..i + 1][..i] == chunks[..i];
      NextChunk(Concat(chunks[..i]), chunks[i], BLANK, FrameReader(parse));
      var more;
      more, buffer := ReadFrames(buffer + chunks[i], parse);
      messages := messages + more;
    }
    assert chunks[..|chunks|] == chunks;
  }

  // --- the line reader -------------------------------------------------------------------------

  datatype Payload<J> = Done | Value(value: J)

  /** The `data:` payload of a line, if it has one that is `[DONE]` or JSON. */
  function LinePayload<J>(line: string, parse: string -> Option<J>): Option<Payload<J>> {
    var text := Trim(line);
    if !StartsWith(text, "data:") then None
    else
      var data := Trim(text[5..]);
      if data == "[DONE]" then Some(Done) else if parse(data).Some? then Some(Value(parse(data).value)) else None
  }

  function LineReader<J>(parse: string -> Option<J>): string -> Option<Payload<J>> {
    line => LinePayload(line, parse)
  }

  /** The payloads of a whole body, its last line included whether or not a newline ends it. */
  function BodyPayloads<J>(text: string, parse: string -> Option<J>): seq<Payload<J>> {
    Collect(Lines(text), LineReader(parse))
  }

  /** The inner loop over finished lines. */
  method ReadLines<J>(text: string, parse: string -> Option<J>) returns (payloads: seq<Payload<J>>, pending: string)
    ensures payloads == Finished(text, NL, LineReader(parse)) && pending == Rest(text, NL)
  {
    payloads, pending := [], text;
    var newline := IndexOf(pending, NL);
    while newline.Some?
      invariant newline == IndexOf(pending, NL)
      invariant payloads + Finished(pending, NL, LineReader(parse)) == Finished(text, NL, LineReader(parse))
      invariant Rest(pending, NL) == Rest(text, NL)
      decreases |pending|
    {
      FirstPiece(payloads, pending, NL, newline.value, LineReader(parse));
      payloads := payloads + AsSeq(LinePayload(pending[..newline.value], parse));
      pending := pending[newline.value + 1..];
      newline := IndexOf(pending, NL);
    }
  }

  lemma EmptyLine<J>(parse: string -> Option<J>)
    ensures LinePayload("", parse) == None
  {
    assert Trim("") == "";
  }

  /** `upstreamEvents`: what it yields, for any chunking of the text; the tail is flushed. */
  method ReadUpstream<J>(chunks: seq<string>, parse: string -> Option<J>) returns (payloads: seq<Payload<J>>)
    ensures payloads == BodyPayloads(Concat(chunks), parse)
  {
    var pending := "";
    payloads := [];
    for i := 0 to |chunks|
      invariant payloads == Finished(Concat(chunks[..i]), NL, LineReader(parse)) && pending == Rest(Concat(chunks[..i]), NL)
    {
      assert chunks[..i + 1][..i] == chunks[..i];
      NextChunk(Concat(chunks[..i]), chunks[i], NL, LineReader(parse));
      var more;
      more, pending := ReadLines(pending + chunks[i], parse);
      payloads := payloads + more;
    }
    assert chunks[..|chunks|] == chunks;
    ghost var body := Concat(chunks);
    CollectAppend(Frames(body, NL), [Rest(body, NL)], LineReader(parse));
    CollectOne(Rest(body, NL), LineReader(parse));
    EmptyLine(parse);
    if pending != "" {
      payloads := payloads + AsSeq(LinePayload(pending, parse));
    }
  }
}
