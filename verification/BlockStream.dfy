/** The block transport of shuffle files: an IPC byte stream cut into transport blocks at
    arbitrary places is put back together, its schema is sniffed without consuming it, and
    sub-streams that follow one another are decoded as one. */
module BlockStream {
  import opened Wrappers
  import opened IpcDecoder

  /** One answer of the transport. `NotReady` is a poll that has to be repeated. */
  datatype Arrival = Block(bytes: seq<byte>) | Broken(text: string) | NotReady

  /** The bytes that arrive before the transport breaks or ends. */
  function Content(a: seq<Arrival>): seq<byte> {
    if a == [] || a[0].Broken? then []
    else if a[0].NotReady? then Content(a[1..])
    else a[0].bytes + Content(a[1..])
  }

  function Fault(a: seq<Arrival>): Option<string> {
    if a == [] then None
    else if a[0].Broken? then Some(a[0].text)
    else Fault(a[1..])
  }

  /** Everything a reader sees: the batches and, when the stream does not end cleanly, the error. */
  datatype Output = Output(batches: seq<RecordBatch>, failure: Option<ArrowError>) {
    function After(earlier: seq<RecordBatch>): Output { Output(earlier + batches, failure) }
  }

  function Seen(t: Trace, fault: Option<string>): Output {
    Output(t.batches,
      match t.end
      case Failed(e) => Some(IpcError(e.Display()))
      case Open(_) => if fault.Some? then Some(IpcError(fault.value)) else None)
  }

  // ---------------------------------------------------------------------------
  // Opening: looking for the schema
  // ---------------------------------------------------------------------------

  const MAXIMUM_SCHEMA_BUFFER_SIZE: nat := 8_388_608

  datatype Sniffed = Sniffed(schema: Schema, length: nat)

  /** The schema at the front of `buffer`, and how many bytes it takes; `None` for every parse
      error, be it for want of bytes or because the message is not a schema. */
  function Sniff(c: Codec, buffer: seq<byte>): (r: Option<Sniffed>)
    ensures r.Some? ==> 4 <= r.value.length <= |buffer|
  {
    if |buffer| < 4 then None
    else
      var h := if buffer[..4] == CONTINUATION then 8 else 4;
      if |buffer| < h then None
      else
        var size := Word(buffer[h - 4..h]);
        if size >= 0x8000_0000 || |buffer| < h + size then None
        else
          var metadata := buffer[h..h + size];
          var m := c.parse(metadata);
          if m.Ok? && m.value.kind.SchemaMessage? then Some(Sniffed(c.schemaOf(metadata), h + size)) else None
  }

  datatype OpenError = TooLong(actual: nat) | Premature | Transport(text: string)
  datatype Start = Opened(schema: Schema, buffer: seq<byte>, rest: seq<Arrival>) | Refused(error: OpenError)

  function Opening(c: Codec, buffer: seq<byte>, a: seq<Arrival>): Start
    decreases |a|
  {
    if |buffer| > MAXIMUM_SCHEMA_BUFFER_SIZE then Refused(TooLong(|buffer|))
    else if a == [] then Refused(Premature)
    else
      match a[0]
      case NotReady => Opening(c, buffer, a[1..])
      case Broken(text) => Refused(Transport(text))
      case Block(bytes) =>
        var s := Sniff(c, buffer + bytes);
        if s.Some? then Opened(s.value.schema, buffer + bytes, a[1..]) else Opening(c, buffer + bytes, a[1..])
  }

  /** An incoming block is adopted as it is when nothing is pending. */
  function AppendBlock(pending: seq<byte>, blob: seq<byte>): (r: seq<byte>)
    ensures r == pending + blob
  {
    if pending == [] then blob else pending + blob
  }

  method RunDecoder(c: Codec, d: Decoder, buffer: seq<byte>, ghost ahead: seq<byte>) returns (r: Decoded)
    requires d.Valid()
    ensures r.decoder.Valid() && Bytewise(c, d, buffer + ahead) == Remains(c, r, ahead)
    ensures r.result == Ok(None) ==> r.rest == []
    ensures |r.rest| <= |buffer| && r.rest == buffer[|buffer| - |r.rest|..]
    ensures r.result == Err(UNEXPECTED_EOS) ==> |r.rest| < |buffer| || d.Lag() == 1
  {
    DecodeIsBytewise(c, d, buffer, ahead);
    r := Decode(c, d, buffer);
  }

  datatype Poll = Ready(item: Result<RecordBatch, ArrowError>) | Ended | Pending

  class BlockDataStream {
    const codec: Codec
    var decoder: Decoder
    var stateBuffer: seq<byte>
    var transport: seq<Arrival>
    var transmitted: nat
    var schema: Schema
    /** All blocks pulled so far, end to end, and the part of them that decoders have taken. */
    ghost var pulled: seq<byte>
    ghost var consumed: seq<byte>

    ghost predicate Valid()
      reads this
    {
      decoder.Valid() && pulled == consumed + stateBuffer && transmitted == |pulled|
    }

    /** What the remaining polls will produce. */
    ghost function Rest(): Output
      reads this
      requires Valid()
    {
      Seen(Coming(), Fault(transport))
    }

    ghost function Coming(): Trace
      reads this
      requires Valid()
    {
      Bytewise(codec, decoder, stateBuffer + Content(transport))
    }

    constructor (codec: Codec, buffer: seq<byte>, transport: seq<Arrival>, schema: Schema)
      ensures Valid() && this.codec == codec && decoder == Fresh(codec) && stateBuffer == buffer
      ensures this.transport == transport && this.schema == schema && pulled == buffer
    {
      this.codec, decoder, stateBuffer := codec, Fresh(codec), buffer;
      this.transport, this.schema, transmitted := transport, schema, |buffer|;
      pulled, consumed := buffer, [];
    }

    static method TryNew(codec: Codec, transport: seq<Arrival>) returns (r: Result<BlockDataStream, OpenError>)
      ensures match r
        case Ok(s) => fresh(s) && s.Valid() && s.codec == codec && s.decoder == Fresh(codec) && s.pulled == s.stateBuffer &&
                      Opening(codec, [], transport) == Opened(s.schema, s.stateBuffer, s.transport)
        case Err(e) => Opening(codec, [], transport) == Refused(e)
    {
      var buffer, rest := [], transport;
      while true
        invariant Opening(codec, [], transport) == Opening(codec, buffer, rest)
        decreases |rest|
      {
        if |buffer| > MAXIMUM_SCHEMA_BUFFER_SIZE {
          return Err(TooLong(|buffer|));
        }
        if rest == [] {
          return Err(Premature);
        }
        var next := rest[0];
        rest := rest[1..];
        match next {
          case NotReady =>
          case Broken(text) =>
            return Err(Transport(text));
          case Block(bytes) =>
            buffer := AppendBlock(buffer, bytes);
            var sniffed := Sniff(codec, buffer);
            if sniffed.Some? {
              var stream := new BlockDataStream(codec, buffer, rest, sniffed.value.schema);
              return Ok(stream);
            }
        }
      }
    }

    method ExtendBytes(blob: seq<byte>)
      requires Valid()
      modifies `stateBuffer, `transmitted, `pulled
      ensures Valid() && stateBuffer == old(stateBuffer) + blob && pulled == old(pulled) + blob
    {
      transmitted := transmitted + |blob|;
      stateBuffer := AppendBlock(stateBuffer, blob);
      pulled := pulled + blob;
    }

    method DecodeBuffered() returns (r: Result<Option<RecordBatch>, ArrowError>)
      requires Valid()
      modifies `decoder, `stateBuffer, `consumed
      ensures Valid()
      ensures old(Coming()) == Remains(codec, Decoded(r, decoder, stateBuffer), Content(transport))
      ensures r == Ok(None) ==> stateBuffer == []
      ensures r == Err(UNEXPECTED_EOS) ==>
        |stateBuffer| < |old(stateBuffer)| || (|stateBuffer| == |old(stateBuffer)| && old(decoder.Lag()) == 1)
    {
      var t := RunDecoder(codec, decoder, stateBuffer, Content(transport));
      ghost var taken := stateBuffer[..|stateBuffer| - |t.rest|];
      assert stateBuffer == taken + t.rest;
      consumed := consumed + taken;
      decoder, stateBuffer := t.decoder, t.rest;
      r := t.result;
    }

    /** One poll. Every turn of the loop yields, pulls a block, or restarts a decoder that then
        takes at least one byte. */
    method PollNext() returns (p: Poll)
      requires Valid()
      modifies `decoder, `stateBuffer, `transport, `transmitted, `pulled, `consumed
      ensures Valid() && |transport| <= |old(transport)|
      ensures old(pulled) <= pulled
      ensures (p.Ready? && p.item.Err?) || pulled + Content(transport) == old(pulled + Content(transport))
      ensures match p
        case Ready(Ok(b)) => old(Rest()) == Rest().After([b])
        case Ready(Err(e)) => old(Rest()) == Output([], Some(e))
        case Ended => old(Rest()) == Output([], None)
        case Pending => old(Rest()) == Rest() && |transport| < |old(transport)|
    {
      while true
        invariant Valid() && Coming() == old(Coming()) && Fault(transport) == old(Fault(transport))
        invariant |transport| <= |old(transport)| && old(pulled) <= pulled
        invariant pulled + Content(transport) == old(pulled + Content(transport))
        decreases |transport|, |stateBuffer|, decoder.Lag()
      {
        var r := DecodeBuffered();
        match r {
          case Ok(Some(batch)) =>
            return Ready(Ok(batch));
          case Err(e) =>
            if !IsPostEosError(e) {
              return Ready(Err(IpcError(e.Display())));
            }
            decoder := Fresh(codec);
          case Ok(None) =>
            if transport == [] {
              return Ended;
            }
            var next := transport[0];
            ghost var ahead := Content(transport);
            transport := transport[1..];
            match next {
              case Block(blob) =>
                assert stateBuffer + ahead == (stateBuffer + blob) + Content(transport);
                assert pulled + ahead == (pulled + blob) + Content(transport);
                ExtendBytes(blob);
              case Broken(text) =>
                return Ready(Err(IpcError(text)));
              case NotReady =>
                return Pending;
            }
        }
      }
    }

    /** A reader that polls to the end. */
    method Collect() returns (out: Output)
      requires Valid()
      modifies `decoder, `stateBuffer, `transport, `transmitted, `pulled, `consumed
      ensures out == old(Rest())
    {
      out := Output([], None);
      while true
        invariant Valid() && old(Rest()) == Rest().After(out.batches) && out.failure == None
        decreases |Rest().batches| + |transport|
      {
        ghost var rest := Rest();
        var p := PollNext();
        match p {
          case Ready(Ok(batch)) =>
            assert (out.batches + [batch]) + Rest().batches == out.batches + ([batch] + Rest().batches);
            out := Output(out.batches + [batch], None);
          case Ready(Err(e)) =>
            assert rest.After(out.batches).batches == out.batches;
            out := Output(out.batches, Some(e));
            return;
          case Ended =>
            assert rest.After(out.batches).batches == out.batches;
            return;
          case Pending =>
        }
      }
    }
  }
}
