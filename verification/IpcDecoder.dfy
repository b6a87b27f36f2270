/** The framing layer of the Arrow IPC streaming format, as the incremental decoder that
    the shuffle client drives. What a message contains (flatbuffers, compression, arrays) is
    left to a `Codec`; a record batch is an opaque value.

    `Iterate` is one turn of the decoder's loop and takes as many bytes as it can at once;
    `Bytewise` is the reference: the same machine fed a single byte at a time. */
module IpcDecoder {
  import opened Wrappers

  type byte = x: int | 0 <= x < 256

  datatype Schema = Schema(id: int)
  datatype Dictionaries = Dictionaries(id: int)
  datatype RecordBatch = RecordBatch(id: int)

  datatype ArrowError = IpcError(text: string) | ParseError(text: string) | OtherError(text: string) {
    function Display(): string {
      match this
      case IpcError(t) => "Ipc error: " + t
      case ParseError(t) => "Parser error: " + t
      case OtherError(t) => t
    }
  }

  datatype MessageKind = SchemaMessage | DictionaryMessage | BatchMessage | EmptyMessage | OtherMessage
  datatype Message = Message(kind: MessageKind, bodyLength: nat)

  /** Everything inside a message. Unreadable metadata is always a parse error; the other
      readers may fail in any way. */
  datatype Codec = Codec(
    parse: seq<byte> -> Result<Message, string>,
    schemaOf: seq<byte> -> Schema,
    noDictionaries: Dictionaries,
    addDictionary: (Schema, Dictionaries, seq<byte>, seq<byte>) -> Result<Dictionaries, ArrowError>,
    readBatch: (Schema, Dictionaries, seq<byte>, seq<byte>) -> Result<RecordBatch, ArrowError>)

  const CONTINUATION: seq<byte> := [255, 255, 255, 255]
  const UNEXPECTED_EOS := IpcError("Unexpected EOS")

  predicate IsPostEosError(e: ArrowError) {
    e == UNEXPECTED_EOS
  }

  function Word(w: seq<byte>): nat
    requires |w| == 4
  {
    (w[0] as int) + 0x100 * (w[1] as int) + 0x1_0000 * (w[2] as int) + 0x100_0000 * (w[3] as int)
  }

  datatype Phase =
    | Header(got: seq<byte>, continuation: bool)
    | Metadata(size: nat)
    | Body(metadata: seq<byte>, message: Message)
    | Finished

  datatype Decoder = Decoder(phase: Phase, pending: seq<byte>, schema: Option<Schema>, dictionaries: Dictionaries) {
    predicate Valid() {
      match phase
      case Header(got, _) => |got| < 4 && pending == []
      case Metadata(size) => |pending| < size
      case Body(_, m) => |pending| < m.bodyLength || (pending == [] && m.bodyLength == 0)
      case Finished => pending == []
    }

    /** One while the next turn may consume nothing: an empty body waits for the next byte to
        be finished, and so does the complaint about bytes after the end marker. */
    function Lag(): nat {
      if phase.Finished? || (phase.Body? && phase.message.bodyLength == 0) then 1 else 0
    }

    function Restarted(): Decoder {
      this.(phase := Header([], false), pending := [])
    }
  }

  function Fresh(c: Codec): (d: Decoder)
    ensures d.Valid()
  {
    Decoder(Header([], false), [], None, c.noDictionaries)
  }

  datatype Event = Silent | Yield(batch: RecordBatch) | Failure(error: ArrowError)
  datatype Turn = Turn(decoder: Decoder, used: nat, event: Event)

  function Min(a: nat, b: nat): nat { if a <= b then a else b }

  function EndHeader(d: Decoder, continuation: bool, word: seq<byte>): Decoder
    requires |word| == 4
  {
    if !continuation && word == CONTINUATION then d.(phase := Header([], true))
    else if Word(word) == 0 then d.(phase := Finished)
    else d.(phase := Metadata(Word(word)))
  }

  function EndMetadata(c: Codec, d: Decoder, metadata: seq<byte>, used: nat): (t: Turn)
    requires d.phase.Metadata? && d.phase.size > 0 && d.pending == []
    ensures t.decoder.Valid() && t.used == used
    ensures t.event == Silent || (t.event.Failure? && t.event.error.ParseError?)
  {
    match c.parse(metadata)
    case Ok(m) => Turn(d.(phase := Body(metadata, m)), used, Silent)
    case Err(text) => Turn(d, used, Failure(ParseError(text)))
  }

  function EndBody(c: Codec, d: Decoder, body: seq<byte>, used: nat): (t: Turn)
    requires d.phase.Body? && d.pending == []
    ensures t.decoder.Valid() && t.used == used
    ensures t.event.Failure? || t.decoder.Lag() == 0
  {
    var meta := d.phase.metadata;
    var next, stuck := d.Restarted(), d;
    match d.phase.message.kind
    case SchemaMessage =>
      if d.schema.Some? then Turn(stuck, used, Failure(IpcError("Not expecting a schema when messages are read")))
      else Turn(next.(schema := Some(c.schemaOf(meta))), used, Silent)
    case DictionaryMessage =>
      if d.schema.None? then Turn(stuck, used, Failure(IpcError("Missing schema")))
      else (match c.addDictionary(d.schema.value, d.dictionaries, meta, body)
            case Ok(ds) => Turn(next.(dictionaries := ds), used, Silent)
            case Err(e) => Turn(stuck, used, Failure(e)))
    case BatchMessage =>
      if d.schema.None? then Turn(stuck, used, Failure(IpcError("Missing schema")))
      else (match c.readBatch(d.schema.value, d.dictionaries, meta, body)
            case Ok(b) => Turn(next, used, Yield(b))
            case Err(e) => Turn(stuck, used, Failure(e)))
    case EmptyMessage => Turn(next, used, Silent)
    case OtherMessage => Turn(stuck, used, Failure(IpcError("Message type unsupported by StreamDecoder")))
  }

  function HeaderTurn(d: Decoder, buffer: seq<byte>): (t: Turn)
    requires d.Valid() && d.phase.Header? && buffer != []
    ensures t.decoder.Valid() && 0 < t.used <= |buffer| && t.event == Silent
  {
    var Header(got, continuation) := d.phase;
    var n := Min(|buffer|, 4 - |got|);
    var word := got + buffer[..n];
    if |word| < 4 then Turn(d.(phase := Header(word, continuation)), n, Silent)
    else Turn(EndHeader(d, continuation, word), n, Silent)
  }

  /** A zero-copy metadata block that does not parse leaves the buffer untouched. */
  function MetadataTurn(c: Codec, d: Decoder, buffer: seq<byte>): (t: Turn)
    requires d.Valid() && d.phase.Metadata? && buffer != []
    ensures t.decoder.Valid() && t.used <= |buffer|
    ensures t.event == Silent || (t.event.Failure? && t.event.error.ParseError?)
    ensures t.event == Silent ==> t.used > 0
  {
    var size := d.phase.size;
    if d.pending == [] && |buffer| > size then
      EndMetadata(c, d, buffer[..size], if c.parse(buffer[..size]).Ok? then size else 0)
    else
      var n := Min(|buffer|, size - |d.pending|);
      var all := d.pending + buffer[..n];
      if |all| < size then Turn(d.(pending := all), n, Silent) else EndMetadata(c, d.(pending := []), all, n)
  }

  function BodyTurn(c: Codec, d: Decoder, buffer: seq<byte>): (t: Turn)
    requires d.Valid() && d.phase.Body? && buffer != []
    ensures t.decoder.Valid() && t.used <= |buffer|
    ensures t.used > 0 || d.Lag() == 1
    ensures t.used > 0 || t.event.Failure? || t.decoder.Lag() == 0
  {
    var length := d.phase.message.bodyLength;
    if d.pending == [] && |buffer| >= length then
      EndBody(c, d, buffer[..length], length)
    else
      var n := Min(|buffer|, length - |d.pending|);
      var all := d.pending + buffer[..n];
      if |all| < length then Turn(d.(pending := all), n, Silent) else EndBody(c, d.(pending := []), all, n)
  }

  /** One turn of the decoder's loop. When a whole part lies in the buffer it is taken without
      copying; otherwise the available bytes are set aside. */
  function Iterate(c: Codec, d: Decoder, buffer: seq<byte>): (t: Turn)
    requires d.Valid() && buffer != []
    ensures t.decoder.Valid() && t.used <= |buffer|
    ensures t.used > 0 || d.Lag() == 1 || (t.event.Failure? && !IsPostEosError(t.event.error))
    ensures t.used > 0 || t.event.Failure? || t.decoder.Lag() == 0
  {
    match d.phase
    case Header(_, _) => HeaderTurn(d, buffer)
    case Metadata(_) => MetadataTurn(c, d, buffer)
    case Body(_, _) => BodyTurn(c, d, buffer)
    case Finished => Turn(d, 0, Failure(UNEXPECTED_EOS))
  }

  datatype Decoded = Decoded(result: Result<Option<RecordBatch>, ArrowError>, decoder: Decoder, rest: seq<byte>)

  /** `StreamDecoder::decode`: turns until a batch, an error or an empty buffer. */
  function Decode(c: Codec, d: Decoder, buffer: seq<byte>): (r: Decoded)
    requires d.Valid()
    ensures r.decoder.Valid()
    ensures r.result == Ok(None) ==> r.rest == []
    ensures |r.rest| <= |buffer| && r.rest == buffer[|buffer| - |r.rest|..]
    ensures r.result == Err(UNEXPECTED_EOS) ==> |r.rest| < |buffer| || d.Lag() == 1
    decreases |buffer|, d.Lag()
  {
    if buffer == [] then Decoded(Ok(None), d, [])
    else
      var t := Iterate(c, d, buffer);
      match t.event
      case Silent => Decode(c, t.decoder, buffer[t.used..])
      case Yield(b) => Decoded(Ok(Some(b)), t.decoder, buffer[t.used..])
      case Failure(e) => Decoded(Err(e), t.decoder, buffer[t.used..])
  }

  // ---------------------------------------------------------------------------
  // The reference: one byte at a time, restarting after every end marker
  // ---------------------------------------------------------------------------

  datatype End = Open(decoder: Decoder) | Failed(error: ArrowError)
  datatype Trace = Trace(batches: seq<RecordBatch>, end: End) {
    function After(earlier: seq<RecordBatch>): Trace { Trace(earlier + batches, end) }
  }

  function Bytewise(c: Codec, d: Decoder, s: seq<byte>): (r: Trace)
    requires d.Valid()
    ensures r.end.Open? ==> r.end.decoder.Valid()
    decreases |s|, d.Lag()
  {
    if s == [] then Trace([], Open(d))
    else
      var t := Iterate(c, d, s[..1]);
      match t.event
      case Silent => Bytewise(c, t.decoder, s[t.used..])
      case Yield(b) => Bytewise(c, t.decoder, s[t.used..]).After([b])
      case Failure(e) =>
        if IsPostEosError(e) then Bytewise(c, Fresh(c), s[t.used..]) else Trace([], Failed(e))
  }

  /** What is still to come once turn `t` has been taken on `s`. */
  function Resume(c: Codec, t: Turn, s: seq<byte>): Trace
    requires t.decoder.Valid() && t.used <= |s|
  {
    match t.event
    case Silent => Bytewise(c, t.decoder, s[t.used..])
    case Yield(b) => Bytewise(c, t.decoder, s[t.used..]).After([b])
    case Failure(e) =>
      if IsPostEosError(e) then Bytewise(c, Fresh(c), s[t.used..]) else Trace([], Failed(e))
  }

  /** How many bytes a turn would set aside or finish a part with. */
  function Wanted(d: Decoder): nat
    requires d.Valid()
  {
    match d.phase
    case Header(got, _) => 4 - |got|
    case Metadata(size) => size - |d.pending|
    case Body(_, m) => m.bodyLength - |d.pending|
    case Finished => 0
  }

  /** A turn over many bytes does what single-byte turns do. */
  lemma {:induction false} SlabIsBytewise(c: Codec, d: Decoder, s: seq<byte>)
    requires d.Valid() && s != []
    ensures Bytewise(c, d, s) == Resume(c, Iterate(c, d, s), s)
    decreases |s|
  {
    var t, t1 := Iterate(c, d, s), Iterate(c, d, s[..1]);
    if |s| == 1 || Wanted(d) <= 1 {
      SingleByteTurn(c, d, s);
    } else {
      SlabIsBytewise(c, t1.decoder, s[1..]);
      FirstByteThenSlab(c, d, s);
    }
  }

  /** The same turn, but for the bytes an error that ends the stream leaves behind. */
  predicate SameTurn(t: Turn, u: Turn) {
    t.decoder == u.decoder && t.event == u.event &&
    (t.used == u.used || (u.event.Failure? && !IsPostEosError(u.event.error)))
  }

  lemma MetadataSingleByte(c: Codec, d: Decoder, s: seq<byte>)
    requires d.Valid() && |s| > 1 && Wanted(d) <= 1 && d.phase.Metadata?
    ensures SameTurn(MetadataTurn(c, d, s[..1]), MetadataTurn(c, d, s))
  {
    assert s[..1][..1] == s[..1];
    assert d.pending == [] ==> d.pending + s[..1] == s[..1];
  }

  lemma BodySingleByte(c: Codec, d: Decoder, s: seq<byte>)
    requires d.Valid() && |s| > 1 && Wanted(d) <= 1 && d.phase.Body?
    ensures SameTurn(BodyTurn(c, d, s[..1]), BodyTurn(c, d, s))
  {
    assert s[..1][..1] == s[..1] && s[..1][..0] == s[..0];
  }

  lemma SingleByteTurn(c: Codec, d: Decoder, s: seq<byte>)
    requires d.Valid() && s != [] && (|s| == 1 || Wanted(d) <= 1)
    ensures Resume(c, Iterate(c, d, s[..1]), s) == Resume(c, Iterate(c, d, s), s)
  {
    if |s| == 1 {
      assert s[..1] == s;
    } else {
      match d.phase
      case Header(_, _) => assert s[..1][..1] == s[..1];
      case Metadata(_) => MetadataSingleByte(c, d, s);
      case Body(_, _) => BodySingleByte(c, d, s);
      case Finished =>
    }
  }

  /** `late` is `whole` with its first byte already taken. */
  predicate OneByteLess(late: Turn, whole: Turn) {
    late.decoder == whole.decoder && late.event == whole.event &&
    (late.used + 1 == whole.used || (whole.event.Failure? && !IsPostEosError(whole.event.error)))
  }

  lemma HeaderFirstByte(d: Decoder, s: seq<byte>)
    requires d.Valid() && |s| > 1 && Wanted(d) > 1 && d.phase.Header?
    ensures var t1 := HeaderTurn(d, s[..1]);
      t1.used == 1 && t1.decoder.phase.Header? && OneByteLess(HeaderTurn(t1.decoder, s[1..]), HeaderTurn(d, s))
  {
    var n := Min(|s| - 1, Wanted(d) - 1);
    assert d.phase.got + s[..n + 1] == (d.phase.got + s[..1][..1]) + s[1..][..n];
  }

  lemma MetadataFirstByte(c: Codec, d: Decoder, s: seq<byte>)
    requires d.Valid() && |s| > 1 && Wanted(d) > 1 && d.phase.Metadata?
    ensures var t1 := MetadataTurn(c, d, s[..1]);
      t1.used == 1 && t1.event == Silent && t1.decoder.phase.Metadata? &&
      OneByteLess(MetadataTurn(c, t1.decoder, s[1..]), MetadataTurn(c, d, s))
  {
    var n := Min(|s| - 1, Wanted(d) - 1);
    assert d.pending + s[..n + 1] == (d.pending + s[..1][..1]) + s[1..][..n];
    if d.pending == [] { assert [] + s[..n + 1] == s[..n + 1]; }
  }

  lemma BodyFirstByte(c: Codec, d: Decoder, s: seq<byte>)
    requires d.Valid() && |s| > 1 && Wanted(d) > 1 && d.phase.Body?
    ensures var t1 := BodyTurn(c, d, s[..1]);
      t1.used == 1 && t1.event == Silent && t1.decoder.phase.Body? &&
      OneByteLess(BodyTurn(c, t1.decoder, s[1..]), BodyTurn(c, d, s))
  {
    var n := Min(|s| - 1, Wanted(d) - 1);
    assert d.pending + s[..n + 1] == (d.pending + s[..1][..1]) + s[1..][..n];
    if d.pending == [] { assert [] + s[..n + 1] == s[..n + 1]; }
  }

  lemma FirstByteThenSlab(c: Codec, d: Decoder, s: seq<byte>)
    requires d.Valid() && |s| > 1 && Wanted(d) > 1
    ensures var t1 := Iterate(c, d, s[..1]);
      t1.used == 1 && t1.event == Silent &&
      Resume(c, Iterate(c, t1.decoder, s[1..]), s[1..]) == Resume(c, Iterate(c, d, s), s)
  {
    match d.phase {
      case Header(_, _) => HeaderFirstByte(d, s);
      case Metadata(_) => MetadataFirstByte(c, d, s);
      case Body(_, _) => BodyFirstByte(c, d, s);
    }
    var t := Iterate(c, d, s);
    if t.used > 0 { assert s[1..][t.used - 1..] == s[t.used..]; }
  }

  /** Trace `t`, carried on over `more` bytes. */
  function Then(c: Codec, t: Trace, more: seq<byte>): (r: Trace)
    requires t.end.Open? ==> t.end.decoder.Valid()
  {
    if t.end.Open? then Bytewise(c, t.end.decoder, more).After(t.batches) else t
  }

  lemma ThenAfter(c: Codec, t: Trace, earlier: seq<RecordBatch>, more: seq<byte>)
    requires t.end.Open? ==> t.end.decoder.Valid()
    ensures Then(c, t.After(earlier), more) == Then(c, t, more).After(earlier)
  {
    if t.end.Open? {
      var u := Bytewise(c, t.end.decoder, more);
      assert earlier + (t.batches + u.batches) == (earlier + t.batches) + u.batches;
    }
  }

  lemma ThenAtStart(c: Codec, d: Decoder, more: seq<byte>)
    requires d.Valid()
    ensures Then(c, Trace([], Open(d)), more) == Bytewise(c, d, more)
  {
    var u := Bytewise(c, d, more);
    assert [] + u.batches == u.batches;
  }

  /** Decoding a longer string continues where the shorter one left off. */
  lemma {:induction false} BytewiseSplits(c: Codec, d: Decoder, s: seq<byte>, t: seq<byte>)
    requires d.Valid()
    ensures Bytewise(c, d, s + t) == Then(c, Bytewise(c, d, s), t)
    decreases |s|, d.Lag()
  {
    if s == [] {
      assert s + t == t;
      ThenAtStart(c, d, t);
    } else {
      var i := Iterate(c, d, s[..1]);
      assert (s + t)[..1] == s[..1];
      assert (s + t)[i.used..] == s[i.used..] + t;
      if i.event.Silent? {
        BytewiseSplits(c, i.decoder, s[i.used..], t);
      } else if i.event.Yield? {
        BytewiseSplits(c, i.decoder, s[i.used..], t);
        ThenAfter(c, Bytewise(c, i.decoder, s[i.used..]), [i.event.batch], t);
      } else if IsPostEosError(i.event.error) {
        BytewiseSplits(c, Fresh(c), s[i.used..], t);
      }
    }
  }

  /** What is still to come after a call of `Decode`, with `ahead` not yet pulled. */
  function Remains(c: Codec, r: Decoded, ahead: seq<byte>): Trace
    requires r.decoder.Valid()
  {
    match r.result
    case Ok(Some(b)) => Bytewise(c, r.decoder, r.rest + ahead).After([b])
    case Ok(None) => Bytewise(c, r.decoder, r.rest + ahead)
    case Err(e) => if IsPostEosError(e) then Bytewise(c, Fresh(c), r.rest + ahead) else Trace([], Failed(e))
  }

  lemma RemainsMore(c: Codec, r: Decoded, ahead: seq<byte>)
    requires r.decoder.Valid()
    ensures Then(c, Remains(c, r, []), ahead) == Remains(c, r, ahead)
  {
    assert r.rest + [] == r.rest;
    match r.result
    case Ok(Some(b)) =>
      BytewiseSplits(c, r.decoder, r.rest, ahead);
      ThenAfter(c, Bytewise(c, r.decoder, r.rest), [b], ahead);
    case Ok(None) => BytewiseSplits(c, r.decoder, r.rest, ahead);
    case Err(e) => BytewiseSplits(c, Fresh(c), r.rest, ahead);
  }

  /** `Decode` of what is buffered, against the reference over everything still to come. */
  lemma DecodeIsBytewise(c: Codec, d: Decoder, buffer: seq<byte>, ahead: seq<byte>)
    requires d.Valid()
    ensures Bytewise(c, d, buffer + ahead) == Remains(c, Decode(c, d, buffer), ahead)
  {
    DecodeAllIsBytewise(c, d, buffer);
    BytewiseSplits(c, d, buffer, ahead);
    RemainsMore(c, Decode(c, d, buffer), ahead);
  }

  lemma {:induction false} DecodeAllIsBytewise(c: Codec, d: Decoder, buffer: seq<byte>)
    requires d.Valid()
    ensures Bytewise(c, d, buffer) == Remains(c, Decode(c, d, buffer), [])
    decreases |buffer|, d.Lag()
  {
    if buffer != [] {
      SlabIsBytewise(c, d, buffer);
      var t := Iterate(c, d, buffer);
      if t.event.Silent? {
        DecodeAllIsBytewise(c, t.decoder, buffer[t.used..]);
      } else {
        assert buffer[t.used..] + [] == buffer[t.used..];
      }
    }
  }
}
