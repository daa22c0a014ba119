/** From bytes to messages (src/jsonl.rs read_raw_message, trim_ascii): lines are
    framed, blank ones skipped, and each other one parsed. A read may be abandoned
    at any byte; parsing is an arbitrary function. */
module Inbound {
  import opened Text
  import opened Json
  import opened Framing
  import Transport

  type Parser = seq<Byte> -> Option<Json>

  /** Rust's `u8::is_ascii_whitespace`. */
  predicate IsBlank(b: Byte) {
    b == 9 || b == 10 || b == 12 || b == 13 || b == 32
  }

  function TrimStart(s: seq<Byte>): seq<Byte> {
    if s != [] && IsBlank(s[0]) then TrimStart(s[1..]) else s
  }

  function TrimEnd(s: seq<Byte>): seq<Byte> {
    if s != [] && IsBlank(s[|s| - 1]) then TrimEnd(s[..|s| - 1]) else s
  }

  function Trim(s: seq<Byte>): seq<Byte> {
    TrimEnd(TrimStart(s))
  }

  /** What the lines say: nothing for a blank one, else a message or `None` for one
      that does not parse. */
  function Messages(parse: Parser, lines: seq<seq<Byte>>): seq<Option<Json>> {
    if lines == [] then []
    else
      var init, last := Messages(parse, lines[..|lines| - 1]), Trim(lines[|lines| - 1]);
      if last == [] then init else init + [parse(last)]
  }

  lemma {:induction false} MessagesOfMore(parse: Parser, lines: seq<seq<Byte>>, more: seq<seq<Byte>>)
    ensures Messages(parse, lines) <= Messages(parse, lines + more)
  {
    if more == [] {
      assert lines + more == lines;
    } else {
      assert (lines + more)[..|lines + more| - 1] == lines + more[..|more| - 1];
      MessagesOfMore(parse, lines, more[..|more| - 1]);
    }
  }

  datatype Incoming = Message(v: Json) | Malformed | Closed | TooLong | GivenUp

  /** Reads frames until one is not blank. Whatever was abandoned before, the
      messages read are those of the lines framed so far. */
  method ReadRawMessage(reader: Reader, parse: Parser) returns (r: Incoming)
    requires reader.Valid()
    modifies reader
    ensures reader.Valid()
    ensures var (before, after) := (Messages(parse, old(reader.returned)), Messages(parse, reader.returned));
            match r
            case Message(v) => after == before + [Some(v)]
            case Malformed => after == before + [None]
            case _ => after == before
    ensures r.Closed? && !reader.failed ==> reader.returned == Frames(reader.stream).frames
  {
    ghost var before := Messages(parse, reader.returned);
    while true
      invariant reader.Valid() && Messages(parse, reader.returned) == before
      decreases |reader.stream| - reader.Start()
    {
      ghost var lines := reader.returned;
      var frame := reader.ReadBoundedFrame();
      match frame {
        case Abandoned => return GivenUp;
        case End => return Closed;
        case Oversized => return TooLong;
        case Frame(bytes) =>
          assert (lines + [bytes])[..|lines|] == lines;
          var text := Trim(bytes);
          if text != [] {
            var v := parse(text);
            return if v.Some? then Message(v.value) else Malformed;
          }
      }
    }
  }

  function Values(messages: seq<Option<Json>>): seq<Json>
    requires None !in messages
  {
    seq(|messages|, i requires 0 <= i < |messages| => assert messages[i] in messages; messages[i].value)
  }

  /** A stream without an oversized line is framed into its lines. */
  lemma FramedIntoLines(stream: seq<Byte>, lines: seq<seq<Byte>>)
    requires IsLines(lines) && Flatten(lines) == stream && !LongLine(stream)
    ensures Frames(stream).frames == lines
  {
    OversizedExactly(stream);
    FramesAreLines(stream);
    LinesAreUnique(Frames(stream).frames, lines);
  }

  /** From bytes to the client. Let the lines of a stream all parse. However its
      reading was abandoned, the messages read so far are those of the first lines;
      and if those are what the transport read, the requests and the notices that
      reached the client are, each in order and none twice, the first ones the
      lines say; all of them, once all lines are read and none is pending. */
  lemma FromBytesToClient(parse: Parser, stream: seq<Byte>, start: nat, returned: seq<seq<Byte>>, lines: seq<seq<Byte>>,
                          k: Transport.Kind, b: Transport.Books)
    requires start <= |stream| && Tracks(stream, start, returned)
    requires IsLines(lines) && Flatten(lines) == stream && !LongLine(stream) && None !in Messages(parse, lines)
    requires Transport.Kept(Values(Messages(parse, lines)), |Messages(parse, returned)|, b) && Transport.Only(k, b.lost) == []
    ensures Messages(parse, returned) <= Messages(parse, lines)
    ensures Transport.Gone(k, b) <= Transport.Only(k, Values(Messages(parse, lines)))
    ensures returned == lines && b.pending == [] ==> Transport.Gone(k, b) == Transport.Only(k, Values(Messages(parse, lines)))
  {
    FramedIntoLines(stream, lines);
    MessagesOfMore(parse, returned, Frames(stream[start..]).frames);
    Transport.ArriveInOrder(k, Values(Messages(parse, lines)), |Messages(parse, returned)|, b);
  }
}
