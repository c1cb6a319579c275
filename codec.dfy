/** The message codec: one JSON value per stream write, optionally followed by a half-close,
    and an incremental reader that returns as soon as the text received so far parses.
    The JSON text format itself is abstract: a serializer and a parser are supplied. */
module Codec {
  import opened Outcomes
  import opened JsValues
  import opened Transport

  /** `JSON.stringify` and `JSON.parse`; a parse failure carries the SyntaxError's message. */
  datatype Json = Json(serialize: Value -> string, parse: string -> Outcome<Value>)

  /** The round trip the handshake relies on: a JSON value serializes to non-empty text with
      no surrounding white space, and that text parses back to the same value. */
  ghost predicate Sound(j: Json) {
    forall v :: IsJson(v) ==> RoundTrips(j, v)
  }

  predicate RoundTrips(j: Json, v: Value) {
    var t := j.serialize(v);
    t != "" && Trim(t) == t && j.parse(t) == Ok(v)
  }

  /** The characters `String.prototype.trim` removes: WhiteSpace and LineTerminator. */
  predicate IsWhiteSpace(c: char) {
    var n := c as int;
    n == 0x09 || n == 0x0A || n == 0x0B || n == 0x0C || n == 0x0D || n == 0x20 || n == 0xA0
    || n == 0x1680 || (0x2000 <= n <= 0x200A) || n == 0x2028 || n == 0x2029 || n == 0x202F
    || n == 0x205F || n == 0x3000 || n == 0xFEFF
  }

  function TrimStart(s: string): string {
    if s != [] && IsWhiteSpace(s[0]) then TrimStart(s[1..]) else s
  }

  function TrimEnd(s: string): string {
    if s != [] && IsWhiteSpace(s[|s| - 1]) then TrimEnd(s[..|s| - 1]) else s
  }

  /** `s.trim()`. */
  function Trim(s: string): string {
    TrimEnd(TrimStart(s))
  }

  /** Trimming the start removes exactly the leading white space. */
  lemma {:induction false} TrimStartShape(s: string)
    ensures var r := TrimStart(s);
      && |r| <= |s| && r == s[|s| - |r|..]
      && (r != [] ==> !IsWhiteSpace(r[0]))
      && (forall i :: 0 <= i < |s| - |r| ==> IsWhiteSpace(s[i]))
    decreases |s|
  {
    if s != [] && IsWhiteSpace(s[0]) {
      TrimStartShape(s[1..]);
      var r := TrimStart(s);
      assert forall i :: 1 <= i < |s| - |r| ==> s[i] == s[1..][i - 1];
    }
  }

  /** Trimming the end removes exactly the trailing white space. */
  lemma {:induction false} TrimEndShape(s: string)
    ensures var r := TrimEnd(s);
      && |r| <= |s| && r == s[..|r|]
      && (r != [] ==> !IsWhiteSpace(r[|r| - 1]))
      && (forall i :: |r| <= i < |s| ==> IsWhiteSpace(s[i]))
    decreases |s|
  {
    if s != [] && IsWhiteSpace(s[|s| - 1]) {
      TrimEndShape(s[..|s| - 1]);
      var r := TrimEnd(s);
      assert forall i :: |r| <= i < |s| - 1 ==> s[i] == s[..|s| - 1][i];
    }
  }

  /** Trimming leaves nothing exactly when the text is white space only. */
  lemma TrimEmpty(s: string)
    ensures Trim(s) == "" <==> forall i :: 0 <= i < |s| ==> IsWhiteSpace(s[i])
  {
    var a := TrimStart(s);
    TrimStartShape(s);
    TrimEndShape(a);
    assert a != [] ==> a[0] == s[|s| - |a|];
  }

  /** What writeJson does to a stream: one sink write of the serialized value, then, only when
      `closeAfter` holds and the write succeeded, a half-close by `closeWrite` if the stream
      has it and otherwise by `close`. */
  function WriteJsonSpec(v: StreamView, j: Json, value: Value, closeAfter: bool): (StreamView, Outcome<()>) {
    var (v1, r) := SinkSpec(v, j.serialize(value));
    if r.Err? || !closeAfter then (v1, r)
    else if v.caps.hasCloseWrite then (Append(v1, ClosedWrite), r)
    else if v.caps.hasClose then (Append(v1, Closed), r)
    else (v1, r)
  }

  method WriteJson(stream: Stream, j: Json, value: Value, closeAfter: bool) returns (r: Outcome<()>)
    modifies stream
    ensures (stream.View(), r) == WriteJsonSpec(old(stream.View()), j, value, closeAfter)
  {
    var text := j.serialize(value);
    r := stream.Sink(text);
    if r.Err? {
      return;
    }
    if closeAfter {
      if stream.caps.hasCloseWrite {
        stream.CloseWrite();
      } else if stream.caps.hasClose {
        stream.Close();
      }
    }
  }

  /** The half-close `writeJson(..., true)` performs: `closeWrite` when present, else `close`. */
  function HalfCloseEvents(caps: Caps): seq<Event> {
    if caps.hasCloseWrite then [ClosedWrite] else if caps.hasClose then [Closed] else []
  }

  /** On a sink that accepts writes, the events writeJson adds are the write and the half-close. */
  lemma WriteJsonEvents(v: StreamView, j: Json, value: Value, closeAfter: bool)
    requires v.caps.sinkError.None?
    ensures var (v', r) := WriteJsonSpec(v, j, value, closeAfter);
      && r == Ok(())
      && v' == v.(events := v.events + [Wrote(j.serialize(value))] + (if closeAfter then HalfCloseEvents(v.caps) else []))
  {
  }

  function CountWrites(es: seq<Event>): nat {
    if es == [] then 0 else CountWrites(es[..|es| - 1]) + (if es[|es| - 1].Wrote? then 1 else 0)
  }

  /** writeJson performs exactly one write, of the serialized value, and the only thing that may
      follow it is the half-close; the half-close happens exactly when requested and available.
      A rejected sink leaves the stream as it was and passes the rejection on. */
  lemma WriteJsonOneWrite(v: StreamView, j: Json, value: Value, closeAfter: bool)
    ensures var (v', r) := WriteJsonSpec(v, j, value, closeAfter);
      && v'.incoming == v.incoming && v'.caps == v.caps
      && (r.Err? <==> v.caps.sinkError.Some?)
      && (r.Err? ==> v' == v && r.message == v.caps.sinkError.value)
      && (r.Ok? ==>
            && |v'.events| > |v.events|
            && v'.events[..|v.events|] == v.events
            && v'.events[|v.events|] == Wrote(j.serialize(value))
            && CountWrites(v'.events) == CountWrites(v.events) + 1
            && (|v'.events| == |v.events| + 2 <==> closeAfter && (v.caps.hasCloseWrite || v.caps.hasClose))
            && (|v'.events| == |v.events| + 2 ==>
                  v'.events[|v.events| + 1] == (if v.caps.hasCloseWrite then ClosedWrite else Closed))
            && |v'.events| <= |v.events| + 2)
  {
    var (v', r) := WriteJsonSpec(v, j, value, closeAfter);
    if r.Ok? {
      var w := v.events + [Wrote(j.serialize(value))];
      assert w[..|w| - 1] == v.events;
      assert CountWrites(w) == CountWrites(v.events) + 1;
      if |v'.events| == |v.events| + 2 {
        assert v'.events[..|v'.events| - 1] == w;
      }
    }
  }

  /** How readJson ends: with the parsed value, with an error, or waiting forever on a read side
      that stays open without ever delivering parseable text. */
  datatype ReadResult = Parsed(value: Value) | Failed(message: string) | Blocked

  const EMPTY_DATA := "Received empty data from stream"

  /** The buffer, trimmed, is non-empty text that parses. */
  predicate ParsesNow(j: Json, buffer: string) {
    Trim(buffer) != "" && j.parse(Trim(buffer)).Ok?
  }

  /** readJson from the buffer accumulated so far and the chunks still to come: after each chunk,
      a non-empty trimmed buffer that parses is the result; at the end of the stream, an
      empty-looking buffer is an error and anything else is parsed once more. Also gives the
      chunks left unread. */
  function Scan(j: Json, buffer: string, rest: seq<string>, ends: bool): (ReadResult, seq<string>)
    decreases |rest|
  {
    if rest == [] then
      if !ends then (Blocked, [])
      else if Trim(buffer) == "" then (Failed(EMPTY_DATA), [])
      else match j.parse(Trim(buffer))
        case Ok(v) => (Parsed(v), [])
        case Err(e) => (Failed(e), [])
    else
      var b := buffer + rest[0];
      if ParsesNow(j, b) then (Parsed(j.parse(Trim(b)).value), rest[1..])
      else Scan(j, b, rest[1..], ends)
  }

  /** readJson on a stream: the chunks it consumes are gone, and a parse (which always returns
      from inside the `for await` loop) leaves the loop early, calling the source's `return()`. */
  function ReadJsonSpec(v: StreamView, j: Json): (StreamView, ReadResult) {
    var (r, rest) := Scan(j, "", v.incoming, Ends(v));
    if r.Parsed? then (ReturnSpec(v.(incoming := rest)), r) else (v.(incoming := rest), r)
  }

  method ReadJson(stream: Stream, j: Json) returns (r: ReadResult)
    modifies stream
    ensures (stream.View(), r) == ReadJsonSpec(old(stream.View()), j)
  {
    var message := "";
    ghost var ends := Ends(stream.View());
    while stream.incoming != []
      invariant Scan(j, message, stream.incoming, ends) == Scan(j, "", old(stream.incoming), ends)
      invariant !ParsesNow(j, message)
      invariant stream.returned == old(stream.returned) && stream.events == old(stream.events)
      decreases |stream.incoming|
    {
      var chunk := stream.NextChunk();
      message := message + chunk;
      var trimmed := Trim(message);
      if |trimmed| > 0 {
        var p := j.parse(trimmed);
        if p.Ok? {
          assert ParsesNow(j, message);
          stream.Return();
          return Parsed(p.value);
        }
      }
    }
    if !(stream.caps.ends || stream.returned) {
      return Blocked;
    }
    if Trim(message) == "" {
      return Failed(EMPTY_DATA);
    }
    // The whole buffer was already tried after the last chunk, so this parse fails again.
    var p := j.parse(Trim(message));
    assert p.Err?;
    r := Failed(p.message);
  }

  function Concat(chunks: seq<string>): string {
    if chunks == [] then "" else chunks[0] + Concat(chunks[1..])
  }

  /** The buffer, once the first k of the chunks have arrived, trims to text that parses. */
  predicate ParsesAfter(j: Json, buffer: string, chunks: seq<string>, k: nat)
    requires k <= |chunks|
  {
    ParsesNow(j, buffer + Concat(chunks[..k]))
  }

  lemma ConcatStep(buffer: string, chunks: seq<string>, i: nat)
    requires i < |chunks|
    ensures buffer + Concat(chunks[..i + 1]) == (buffer + chunks[0]) + Concat(chunks[1..][..i])
  {
    assert chunks[..i + 1][1..] == chunks[1..][..i];
  }

  /** The text parsed after i + 1 chunks is the text parsed after i more, once the first chunk
      is in the buffer. */
  lemma ParseShift(j: Json, buffer: string, chunks: seq<string>, i: nat)
    requires i < |chunks|
    ensures j.parse(Trim(buffer + Concat(chunks[..i + 1]))) == j.parse(Trim((buffer + chunks[0]) + Concat(chunks[1..][..i])))
  {
    ConcatStep(buffer, chunks, i);
  }

  /** Once the first chunk is in the buffer, "parses after i + 1 chunks" is "parses after i more". */
  lemma ParsesAfterShift(j: Json, buffer: string, chunks: seq<string>, i: nat)
    requires i < |chunks|
    ensures ParsesAfter(j, buffer, chunks, i + 1) == ParsesAfter(j, buffer + chunks[0], chunks[1..], i)
  {
    ConcatStep(buffer, chunks, i);
  }

  /** After one chunk, the buffer holds exactly that chunk's text appended. */
  lemma ParsesAfterOne(j: Json, buffer: string, chunks: seq<string>)
    requires chunks != []
    ensures buffer + Concat(chunks[..1]) == buffer + chunks[0]
    ensures ParsesAfter(j, buffer, chunks, 1) == ParsesNow(j, buffer + chunks[0])
  {
    var one := chunks[..1];
    assert one[1..] == [];
    assert Concat(one) == chunks[0];
    assert buffer + Concat(one) == buffer + chunks[0];
  }

  /** One turn of the reading loop. */
  lemma ScanStep(j: Json, buffer: string, chunks: seq<string>, ends: bool)
    requires chunks != []
    ensures Scan(j, buffer, chunks, ends)
      == if ParsesNow(j, buffer + chunks[0]) then (Parsed(j.parse(Trim(buffer + chunks[0])).value), chunks[1..])
         else Scan(j, buffer + chunks[0], chunks[1..], ends)
  {
  }

  /** readJson returns at the first chunk after which the trimmed buffer parses, with that parse,
      leaving the later chunks unread, whether or not the stream would end afterwards. */
  lemma {:induction false} ReadJsonFirstParse(j: Json, buffer: string, chunks: seq<string>, ends: bool, k: nat)
    requires 1 <= k <= |chunks|
    requires ParsesAfter(j, buffer, chunks, k)
    requires forall i :: 1 <= i < k ==> !ParsesAfter(j, buffer, chunks, i)
    ensures Scan(j, buffer, chunks, ends)
      == (Parsed(j.parse(Trim(buffer + Concat(chunks[..k]))).value), chunks[k..])
    decreases k
  {
    var b := buffer + chunks[0];
    if k == 1 {
      ParsesAfterOne(j, buffer, chunks);
      ScanStep(j, buffer, chunks, ends);
    } else {
      assert Scan(j, buffer, chunks, ends) == Scan(j, b, chunks[1..], ends) by {
        assert !ParsesAfter(j, buffer, chunks, 1);
        ParsesAfterOne(j, buffer, chunks);
        ScanStep(j, buffer, chunks, ends);
      }
      var later := chunks[1..];
      assert Scan(j, b, later, ends) == (Parsed(j.parse(Trim(b + Concat(later[..k - 1]))).value), later[k - 1..]) by {
        forall i | 1 <= i < k - 1
          ensures !ParsesAfter(j, b, later, i)
        {
          ParsesAfterShift(j, buffer, chunks, i);
        }
        ParsesAfterShift(j, buffer, chunks, k - 1);
        ReadJsonFirstParse(j, b, later, ends, k - 1);
      }
      ParseShift(j, buffer, chunks, k - 1);
      assert later[k - 1..] == chunks[k..];
    }
  }

  /** When no prefix of the chunks ever parses, readJson waits forever on a stream that stays
      open; on a stream that ends it fails, with "Received empty data from stream" when all
      text received was white space, and otherwise with the parser's own error. */
  lemma {:induction false} ReadJsonNoParse(j: Json, buffer: string, chunks: seq<string>, ends: bool)
    requires forall i :: 0 <= i <= |chunks| ==> !ParsesAfter(j, buffer, chunks, i)
    ensures Scan(j, buffer, chunks, ends).1 == []
    ensures !ends ==> Scan(j, buffer, chunks, ends).0 == Blocked
    ensures ends && Trim(buffer + Concat(chunks)) == "" ==> Scan(j, buffer, chunks, ends).0 == Failed(EMPTY_DATA)
    ensures ends && Trim(buffer + Concat(chunks)) != "" ==>
      j.parse(Trim(buffer + Concat(chunks))).Err?
      && Scan(j, buffer, chunks, ends).0 == Failed(j.parse(Trim(buffer + Concat(chunks))).message)
    decreases |chunks|
  {
    if chunks == [] {
      assert chunks[..0] == [];
      assert !ParsesAfter(j, buffer, chunks, 0);
      assert buffer + Concat(chunks) == buffer;
    } else {
      var b := buffer + chunks[0];
      ParsesAfterOne(j, buffer, chunks);
      ScanStep(j, buffer, chunks, ends);
      assert !ParsesAfter(j, buffer, chunks, 1);
      assert !ParsesNow(j, b);
      forall i | 0 <= i <= |chunks| - 1
        ensures !ParsesAfter(j, b, chunks[1..], i)
      {
        ParsesAfterShift(j, buffer, chunks, i);
      }
      ReadJsonNoParse(j, b, chunks[1..], ends);
      assert buffer + Concat(chunks) == b + Concat(chunks[1..]);
    }
  }
  /** A stream that carries one message in one chunk and then ends: the first read returns the
      message and leaves nothing behind, and a further read fails with "Received empty data
      from stream". */
  lemma ReadJsonSingleMessage(j: Json, v: StreamView, text: string, msg: Value)
    requires v.incoming == [text] && Ends(v)
    requires Trim(text) != "" && j.parse(Trim(text)) == Ok(msg)
    ensures ReadJsonSpec(v, j) == (ReturnSpec(v.(incoming := [])), Parsed(msg))
    ensures ReadJsonSpec(ReturnSpec(v.(incoming := [])), j).1 == Failed(EMPTY_DATA)
  {
    var rest := [text];
    assert rest[0] == text && rest[1..] == [];
    assert "" + rest[0] == text;
    assert ParsesNow(j, "" + rest[0]);
    assert Scan(j, "", rest, true) == (Parsed(msg), []);
    assert TrimStart("") == "" && TrimEnd("") == "";
  }

  /** On a source that closes on return, a read that parses a message ends the source: what the
      peer sent after that message is dropped, and the next read on the stream fails with
      "Received empty data from stream". */
  lemma ReadAfterReturnFails(j: Json, v: StreamView, msg: Value)
    requires v.caps.closesOnReturn
    requires ReadJsonSpec(v, j).1 == Parsed(msg)
    ensures ReadJsonSpec(v, j).0.incoming == [] && Ends(ReadJsonSpec(v, j).0)
    ensures ReadJsonSpec(ReadJsonSpec(v, j).0, j) == (ReadJsonSpec(v, j).0, Failed(EMPTY_DATA))
  {
    var w := ReadJsonSpec(v, j).0;
    assert Scan(j, "", w.incoming, Ends(w)) == (Failed(EMPTY_DATA), []) by {
      assert TrimStart("") == "" && TrimEnd("") == "";
    }
  }
}
