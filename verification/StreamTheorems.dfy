/** What a shuffle reader is promised: the result does not depend on how the transport cut the
    bytes, and sub-streams written one after another read as one. */
module StreamTheorems {
  import opened Wrappers
  import opened IpcDecoder
  import opened BlockStream

  datatype Fetched = Fetched(schema: Schema, output: Output) | NotOpened(error: OpenError)

  function Fetch(c: Codec, a: seq<Arrival>): Fetched {
    match Opening(c, [], a)
    case Opened(schema, buffer, rest) =>
      Fetched(schema, Seen(Bytewise(c, Fresh(c), buffer + Content(rest)), Fault(rest)))
    case Refused(e) => NotOpened(e)
  }

  /** Open a stream and poll it to the end. */
  method FetchAll(c: Codec, a: seq<Arrival>) returns (r: Fetched)
    ensures r == Fetch(c, a)
  {
    var start := BlockDataStream.TryNew(c, a);
    match start {
      case Err(e) =>
        r := NotOpened(e);
      case Ok(stream) =>
        var out := stream.Collect();
        r := Fetched(stream.schema, out);
    }
  }

  // ---------------------------------------------------------------------------
  // Independence from the cutting into blocks
  // ---------------------------------------------------------------------------

  /** The schema is recognised from its last byte on, and never before. */
  lemma SniffPrefix(c: Codec, s: seq<byte>, k: nat)
    requires k <= |s|
    ensures Sniff(c, s[..k]) ==
      if Sniff(c, s).Some? && k >= Sniff(c, s).value.length then Sniff(c, s) else None
  {
    var p := s[..k];
    if k >= 4 {
      assert p[..4] == s[..4];
      var h := if s[..4] == CONTINUATION then 8 else 4;
      if k >= h {
        assert p[h - 4..h] == s[h - 4..h];
        var size := Word(s[h - 4..h]);
        if k >= h + size { assert p[h..h + size] == s[h..h + size]; }
      }
    }
  }

  /** Pulling a block moves its bytes from what is ahead to what is buffered. */
  lemma PullBlock(c: Codec, buffer: seq<byte>, a: seq<Arrival>)
    requires a != [] && a[0].Block?
    ensures var s, next := buffer + Content(a), buffer + a[0].bytes;
      && s == next + Content(a[1..])
      && Sniff(c, next) == if Sniff(c, s).Some? && |next| >= Sniff(c, s).value.length then Sniff(c, s) else None
  {
    var s, next := buffer + Content(a), buffer + a[0].bytes;
    assert s == next + Content(a[1..]) && s[..|next|] == next;
    SniffPrefix(c, s, |next|);
  }

  lemma BufferTooShort(c: Codec, buffer: seq<byte>, more: seq<byte>)
    requires Sniff(c, buffer).None? && Sniff(c, buffer + more).Some?
    ensures |buffer| < Sniff(c, buffer + more).value.length
  {
    assert (buffer + more)[..|buffer|] == buffer;
    SniffPrefix(c, buffer + more, |buffer|);
  }

  /** Opening when `buffer + Content(a)` has a schema `f` at its front, however it is cut. */
  lemma {:induction false} OpeningFinds(c: Codec, buffer: seq<byte>, a: seq<Arrival>, f: Sniffed)
    requires Sniff(c, buffer).None? && Sniff(c, buffer + Content(a)) == Some(f)
    ensures var r := Opening(c, buffer, a);
      && (r.Opened? ==> r.schema == f.schema && r.buffer + Content(r.rest) == buffer + Content(a) && Fault(r.rest) == Fault(a))
      && (f.length <= MAXIMUM_SCHEMA_BUFFER_SIZE + 1 ==> r.Opened?)
    decreases |a|
  {
    BufferTooShort(c, buffer, Content(a));
    if |buffer| <= MAXIMUM_SCHEMA_BUFFER_SIZE {
      if a[0].NotReady? {
        OpeningFinds(c, buffer, a[1..], f);
      } else {
        PullBlock(c, buffer, a);
        if Sniff(c, buffer + a[0].bytes).None? { OpeningFinds(c, buffer + a[0].bytes, a[1..], f); }
      }
    }
  }

  /** Opening when there is no schema at the front: only the kind of error is fixed. */
  lemma {:induction false} OpeningFails(c: Codec, buffer: seq<byte>, a: seq<Arrival>)
    requires Sniff(c, buffer + Content(a)).None?
    ensures var r := Opening(c, buffer, a);
      r.Refused? &&
      if |buffer + Content(a)| > MAXIMUM_SCHEMA_BUFFER_SIZE then r.error.TooLong?
      else r.error == if Fault(a).Some? then Transport(Fault(a).value) else Premature
    decreases |a|
  {
    if |buffer| <= MAXIMUM_SCHEMA_BUFFER_SIZE && a != [] && !a[0].Broken? {
      if a[0].NotReady? {
        OpeningFails(c, buffer, a[1..]);
      } else {
        PullBlock(c, buffer, a);
        OpeningFails(c, buffer + a[0].bytes, a[1..]);
      }
    }
  }

  /** The length in the refusal of an overlong header is the one thing a cut may change. */
  predicate SameFetch(x: Fetched, y: Fetched) {
    x == y || (x.NotOpened? && x.error.TooLong? && y.NotOpened? && y.error.TooLong?)
  }

  /** No schema, or one that ends within the limit (one byte more still fits, as the limit is
      checked before a block is pulled). */
  predicate FitsLimit(c: Codec, s: seq<byte>) {
    Sniff(c, s).Some? ==> Sniff(c, s).value.length <= MAXIMUM_SCHEMA_BUFFER_SIZE + 1
  }

  lemma ChunkingIndependence(c: Codec, a: seq<Arrival>, b: seq<Arrival>)
    requires Content(a) == Content(b) && Fault(a) == Fault(b)
    requires FitsLimit(c, Content(a))
    ensures SameFetch(Fetch(c, a), Fetch(c, b))
  {
    assert [] + Content(a) == Content(a);
    assert [] + Content(b) == Content(b);
    if Sniff(c, Content(a)).Some? {
      OpeningFinds(c, [], a, Sniff(c, Content(a)).value);
      OpeningFinds(c, [], b, Sniff(c, Content(a)).value);
    } else {
      OpeningFails(c, [], a);
      OpeningFails(c, [], b);
    }
  }

  predicate CutOf(a: seq<Arrival>, s: seq<byte>) {
    Content(a) == s && Fault(a) == None
  }

  lemma CutInTwo(s: seq<byte>, t: seq<byte>)
    ensures CutOf([Block(s), Block(t)], s + t)
  {
    var a, b := [Block(s), Block(t)], [Block(t)];
    assert a[1..] == b && b[1..] == [];
    assert Content(b) == t + Content([]) == t && Fault(b) == Fault([]);
    assert Content(a) == s + Content(b) && Fault(a) == Fault(b);
  }

  /** All cuts of a byte string agree exactly when its schema fits the limit. */
  lemma CutsAgreeIff(c: Codec, s: seq<byte>)
    ensures (forall a, b | CutOf(a, s) && CutOf(b, s) :: SameFetch(Fetch(c, a), Fetch(c, b))) <==> FitsLimit(c, s)
  {
    if FitsLimit(c, s) {
      forall a, b | CutOf(a, s) && CutOf(b, s)
        ensures SameFetch(Fetch(c, a), Fetch(c, b))
      {
        ChunkingIndependence(c, a, b);
      }
    } else {
      var a, b := OverlongSchemaDependsOnCut(c, s);
    }
  }

  lemma OneBlockOpens(c: Codec, s: seq<byte>)
    requires Sniff(c, s).Some?
    ensures Fetch(c, [Block(s), Block([])]).Fetched?
  {
    assert [] + s == s;
  }

  lemma OverlongPieceIsRefused(c: Codec, s: seq<byte>, t: seq<byte>)
    requires Sniff(c, s).None? && |s| > MAXIMUM_SCHEMA_BUFFER_SIZE
    ensures Fetch(c, [Block(s), Block(t)]) == NotOpened(TooLong(|s|))
  {
    var a := [Block(s), Block(t)];
    assert [] + s == s;
    assert Opening(c, [], a) == Opening(c, s, a[1..]);
  }

  lemma CutsDiffer(c: Codec, s: seq<byte>, t: seq<byte>, u: seq<byte>)
    requires Sniff(c, s).Some? && Sniff(c, t).None? && |t| > MAXIMUM_SCHEMA_BUFFER_SIZE
    ensures !SameFetch(Fetch(c, [Block(s), Block([])]), Fetch(c, [Block(t), Block(u)]))
  {
    OneBlockOpens(c, s);
    OverlongPieceIsRefused(c, t, u);
  }

  lemma TwoCuts(s: seq<byte>, n: nat)
    requires n <= |s|
    ensures CutOf([Block(s), Block([])], s) && CutOf([Block(s[..n]), Block(s[n..])], s)
  {
    assert s + [] == s && s[..n] + s[n..] == s;
    CutInTwo(s, []);
    CutInTwo(s[..n], s[n..]);
  }

  lemma SchemaNeedsItsLastByte(c: Codec, s: seq<byte>) returns (n: nat)
    requires Sniff(c, s).Some?
    ensures n + 1 == Sniff(c, s).value.length && n < |s| && Sniff(c, s[..n]).None?
  {
    n := Sniff(c, s).value.length - 1;
    SniffPrefix(c, s, n);
  }

  lemma OverlongSchemaDependsOnCut(c: Codec, s: seq<byte>) returns (a: seq<Arrival>, b: seq<Arrival>)
    requires !FitsLimit(c, s)
    ensures CutOf(a, s) && CutOf(b, s) && !SameFetch(Fetch(c, a), Fetch(c, b))
  {
    var n := SchemaNeedsItsLastByte(c, s);
    TwoCuts(s, n);
    CutsDiffer(c, s, s[..n], s[n..]);
    a, b := [Block(s), Block([])], [Block(s[..n]), Block(s[n..])];
  }

  /** A stream that stops early delivers a prefix of the batches and ends without an error. */
  lemma TruncationIsSilent(c: Codec, s: seq<byte>, t: seq<byte>)
    requires Bytewise(c, Fresh(c), s + t).end.Open?
    ensures Bytewise(c, Fresh(c), s).batches <= Bytewise(c, Fresh(c), s + t).batches
    ensures Seen(Bytewise(c, Fresh(c), s), None).failure == None
  {
    BytewiseSplits(c, Fresh(c), s, t);
  }

  // ---------------------------------------------------------------------------
  // Sub-streams that follow one another
  // ---------------------------------------------------------------------------

  /** A message as a writer lays it out; the legacy form has no continuation marker. */
  datatype AnyFrame = Frame(legacy: bool, metadata: seq<byte>, body: seq<byte>)
  type Frame = f: AnyFrame | |f.metadata| < 0x1_0000_0000 witness AnyFrame.Frame(false, [], [])
  datatype SubStream = SubStream(frames: seq<Frame>, legacyEnd: bool)

  function Marker(legacy: bool): seq<byte> { if legacy then [] else CONTINUATION }

  function LittleEndian(n: nat): (w: seq<byte>)
    requires n < 0x1_0000_0000
    ensures |w| == 4 && Word(w) == n
  {
    var a := n / 0x100;
    var b := a / 0x100;
    [n % 0x100, a % 0x100, b % 0x100, b / 0x100]
  }

  predicate WellFormed(c: Codec, f: Frame) {
    && f.metadata != []
    && (f.legacy ==> |f.metadata| != 0xffff_ffff)
    && c.parse(f.metadata).Ok? && c.parse(f.metadata).value.bodyLength == |f.body|
  }

  function Prefix(f: Frame): seq<byte>
  {
    Marker(f.legacy) + LittleEndian(|f.metadata|)
  }

  function EncodeFrames(frames: seq<Frame>): seq<byte>
  {
    if frames == [] then []
    else Prefix(frames[0]) + (frames[0].metadata + (frames[0].body + EncodeFrames(frames[1..])))
  }

  function EndMarker(legacy: bool): seq<byte> { Marker(legacy) + [0, 0, 0, 0] }

  function EncodeStream(s: SubStream): seq<byte>
  {
    EncodeFrames(s.frames) + EndMarker(s.legacyEnd)
  }

  /** The message-level meaning: frames handled one by one, no bytes in sight. */
  function Interpret(c: Codec, d: Decoder, frames: seq<Frame>): Trace
    requires d.Valid()
    requires forall i | 0 <= i < |frames| :: WellFormed(c, frames[i])
    decreases |frames|
  {
    if frames == [] then Trace([], Open(d))
    else
      var f := frames[0];
      var t := EndBody(c, AtBody(c, d, f), f.body, 0);
      match t.event
      case Failure(e) => Trace([], Failed(e))
      case Silent => Interpret(c, t.decoder, frames[1..])
      case Yield(b) => Interpret(c, t.decoder, frames[1..]).After([b])
  }

  /** A complete sub-stream: every message is well formed and every one of them can be read. */
  predicate Complete(c: Codec, s: SubStream) {
    && (forall i | 0 <= i < |s.frames| :: WellFormed(c, s.frames[i]))
    && Interpret(c, Fresh(c), s.frames).end.Open?
  }

  function BatchesOf(c: Codec, s: SubStream): seq<RecordBatch>
    requires Complete(c, s)
  {
    Interpret(c, Fresh(c), s.frames).batches
  }

  predicate AtHeader(d: Decoder) {
    d.phase == Header([], false) && d.pending == []
  }

  lemma HeaderWord(c: Codec, d: Decoder, w: seq<byte>, more: seq<byte>)
    requires d.Valid() && d.phase.Header? && d.phase.got == [] && |w| == 4
    ensures Bytewise(c, d, w + more) == Bytewise(c, EndHeader(d, d.phase.continuation, w), more)
  {
    SlabIsBytewise(c, d, w + more);
    assert [] + (w + more)[..4] == w;
    assert (w + more)[4..] == more;
  }

  lemma PrefixDecodes(c: Codec, d: Decoder, f: Frame, more: seq<byte>)
    requires AtHeader(d) && WellFormed(c, f)
    ensures Bytewise(c, d, Prefix(f) + more) == Bytewise(c, d.(phase := Metadata(|f.metadata|)), more)
  {
    var w := LittleEndian(|f.metadata|);
    if f.legacy {
      assert Word(CONTINUATION) == 0xffff_ffff;
      assert Prefix(f) + more == w + more;
      HeaderWord(c, d, w, more);
    } else {
      assert Prefix(f) + more == CONTINUATION + (w + more);
      HeaderWord(c, d, CONTINUATION, w + more);
      HeaderWord(c, d.(phase := Header([], true)), w, more);
    }
  }

  lemma EndMarkerDecodes(c: Codec, d: Decoder, legacy: bool, more: seq<byte>)
    requires AtHeader(d)
    ensures Bytewise(c, d, EndMarker(legacy) + more) == Bytewise(c, d.(phase := Finished), more)
  {
    var w: seq<byte> := [0, 0, 0, 0];
    if legacy {
      assert EndMarker(legacy) + more == w + more;
      HeaderWord(c, d, w, more);
    } else {
      assert EndMarker(legacy) + more == CONTINUATION + (w + more);
      HeaderWord(c, d, CONTINUATION, w + more);
      HeaderWord(c, d.(phase := Header([], true)), w, more);
    }
  }

  lemma MetadataDecodes(c: Codec, d: Decoder, f: Frame, more: seq<byte>)
    requires AtHeader(d) && WellFormed(c, f) && more != []
    ensures var d' := d.(phase := Body(f.metadata, c.parse(f.metadata).value));
      Bytewise(c, d.(phase := Metadata(|f.metadata|)), f.metadata + more) == Bytewise(c, d', more)
  {
    var s := f.metadata + more;
    SlabIsBytewise(c, d.(phase := Metadata(|f.metadata|)), s);
    assert s[..|f.metadata|] == f.metadata && s[|f.metadata|..] == more;
  }

  lemma BodyIsTaken(c: Codec, d: Decoder, body: seq<byte>, more: seq<byte>)
    requires d.Valid() && d.phase.Body? && d.pending == [] && d.phase.message.bodyLength == |body| && more != []
    ensures Bytewise(c, d, body + more) == Resume(c, EndBody(c, d, body, |body|), body + more)
  {
    var s := body + more;
    SlabIsBytewise(c, d, s);
    assert s[..|body|] == body;
  }

  lemma BodyDecodes(c: Codec, d: Decoder, body: seq<byte>, more: seq<byte>)
    requires d.Valid() && d.phase.Body? && d.pending == [] && d.phase.message.bodyLength == |body| && more != []
    ensures Bytewise(c, d, body + more) == Resume(c, EndBody(c, d, body, 0), more)
  {
    BodyIsTaken(c, d, body, more);
    assert (body + more)[|body|..] == more && more[0..] == more;
    EndBodyUsed(c, d, body, |body|);
  }

  lemma EndBodyUsed(c: Codec, d: Decoder, body: seq<byte>, n: nat)
    requires d.phase.Body? && d.pending == []
    ensures EndBody(c, d, body, n) == EndBody(c, d, body, 0).(used := n)
  {
  }

  lemma Regroup(p: seq<byte>, m: seq<byte>, r: seq<byte>, t: seq<byte>)
    ensures (p + (m + r)) + t == p + (m + (r + t))
  {
  }

  /** The decoder once the metadata of `f` has been taken. */
  function AtBody(c: Codec, d: Decoder, f: Frame): (b: Decoder)
    requires WellFormed(c, f)
    ensures b.Valid()
  {
    d.(phase := Body(f.metadata, c.parse(f.metadata).value), pending := [])
  }

  lemma FrameDecodes(c: Codec, d: Decoder, f: Frame, more: seq<byte>)
    requires AtHeader(d) && WellFormed(c, f) && more != []
    ensures Bytewise(c, d, Prefix(f) + (f.metadata + (f.body + more))) ==
      Resume(c, EndBody(c, AtBody(c, d, f), f.body, 0), more)
  {
    PrefixDecodes(c, d, f, f.metadata + (f.body + more));
    MetadataDecodes(c, d, f, f.body + more);
    BodyDecodes(c, AtBody(c, d, f), f.body, more);
  }

  lemma EndBodyAtHeader(c: Codec, b: Decoder, body: seq<byte>)
    requires b.phase.Body? && b.pending == []
    ensures var t := EndBody(c, b, body, 0); t.event.Failure? || AtHeader(t.decoder)
  {
  }

  /** Bytes against messages: frames followed by anything decode as their interpretation
      followed by the rest. */
  lemma {:induction false} FramesDecode(c: Codec, d: Decoder, frames: seq<Frame>, more: seq<byte>)
    requires AtHeader(d) && more != []
    requires forall i | 0 <= i < |frames| :: WellFormed(c, frames[i])
    requires Interpret(c, d, frames).end.Open?
    ensures var t := Interpret(c, d, frames);
      AtHeader(t.end.decoder) && Bytewise(c, d, EncodeFrames(frames) + more) == Then(c, t, more)
    decreases |frames|
  {
    if frames == [] {
      assert EncodeFrames(frames) + more == more;
      ThenAtStart(c, d, more);
    } else {
      var f, rest := frames[0], EncodeFrames(frames[1..]);
      assert EncodeFrames(frames) + more == Prefix(f) + (f.metadata + (f.body + (rest + more)));
      FrameDecodes(c, d, f, rest + more);
      var t := EndBody(c, AtBody(c, d, f), f.body, 0);
      EndBodyAtHeader(c, AtBody(c, d, f), f.body);
      assert (rest + more)[0..] == rest + more;
      FramesDecode(c, t.decoder, frames[1..], more);
      if t.event.Yield? {
        ThenAfter(c, Interpret(c, t.decoder, frames[1..]), [t.event.batch], more);
      }
    }
  }

  /** Reading starts over after an end marker as soon as there is another byte. */
  lemma FinishedRestarts(c: Codec, d: Decoder, more: seq<byte>)
    requires d.phase.Finished? && d.pending == [] && more != []
    ensures Bytewise(c, d, more) == Bytewise(c, Fresh(c), more)
  {
  }

  lemma StreamDecodes(c: Codec, s: SubStream, more: seq<byte>)
    requires Complete(c, s)
    ensures var t := Bytewise(c, Fresh(c), EncodeStream(s) + more);
      && (more != [] ==> t == Bytewise(c, Fresh(c), more).After(BatchesOf(c, s)))
      && (more == [] ==> t.batches == BatchesOf(c, s) && t.end.Open?)
  {
    var tail := EndMarker(s.legacyEnd) + more;
    assert EncodeStream(s) + more == EncodeFrames(s.frames) + tail;
    FramesDecode(c, Fresh(c), s.frames, tail);
    var t := Interpret(c, Fresh(c), s.frames);
    EndMarkerDecodes(c, t.end.decoder, s.legacyEnd, more);
    if more != [] {
      FinishedRestarts(c, t.end.decoder.(phase := Finished), more);
    }
  }

  function EncodeAll(c: Codec, streams: seq<SubStream>): (r: seq<byte>)
    requires forall i | 0 <= i < |streams| :: Complete(c, streams[i])
    ensures r == [] <==> streams == []
  {
    if streams == [] then [] else EncodeStream(streams[0]) + EncodeAll(c, streams[1..])
  }

  function AllBatches(c: Codec, streams: seq<SubStream>): seq<RecordBatch>
    requires forall i | 0 <= i < |streams| :: Complete(c, streams[i])
  {
    if streams == [] then [] else BatchesOf(c, streams[0]) + AllBatches(c, streams[1..])
  }

  lemma {:induction false} ConcatenatedStreamsDecode(c: Codec, streams: seq<SubStream>)
    requires forall i | 0 <= i < |streams| :: Complete(c, streams[i])
    ensures var t := Bytewise(c, Fresh(c), EncodeAll(c, streams));
      t.batches == AllBatches(c, streams) && t.end.Open?
    decreases |streams|
  {
    if streams != [] {
      ConcatenatedStreamsDecode(c, streams[1..]);
      StreamDecodes(c, streams[0], EncodeAll(c, streams[1..]));
    }
  }

  /** The first message of a sub-stream is a schema of `f.metadata`. */
  predicate LeadsWithSchema(c: Codec, s: SubStream) {
    s.frames != [] && c.parse(s.frames[0].metadata).Ok? && c.parse(s.frames[0].metadata).value.kind.SchemaMessage? &&
    |s.frames[0].metadata| < 0x8000_0000
  }

  lemma FrameIsSniffed(c: Codec, f: Frame, tail: seq<byte>)
    requires WellFormed(c, f) && c.parse(f.metadata).value.kind.SchemaMessage? && |f.metadata| < 0x8000_0000
    ensures Sniff(c, Prefix(f) + (f.metadata + tail)) ==
      Some(Sniffed(c.schemaOf(f.metadata), |Prefix(f)| + |f.metadata|))
  {
    var bytes := Prefix(f) + (f.metadata + tail);
    var w, h := LittleEndian(|f.metadata|), |Prefix(f)|;
    assert Word(CONTINUATION) == 0xffff_ffff;
    assert bytes[h - 4..h] == w;
    assert bytes[..4] == if f.legacy then w else CONTINUATION;
    assert bytes[h..h + |f.metadata|] == f.metadata;
  }

  lemma LeadingSchemaIsSniffed(c: Codec, s: SubStream, more: seq<byte>)
    requires Complete(c, s) && LeadsWithSchema(c, s)
    ensures var f := s.frames[0];
      Sniff(c, EncodeStream(s) + more) == Some(Sniffed(c.schemaOf(f.metadata), |Prefix(f)| + |f.metadata|))
  {
    var f := s.frames[0];
    var rest := f.body + EncodeFrames(s.frames[1..]);
    Regroup(Prefix(f), f.metadata, rest, EndMarker(s.legacyEnd));
    Regroup(Prefix(f), f.metadata, rest + EndMarker(s.legacyEnd), more);
    FrameIsSniffed(c, f, rest + EndMarker(s.legacyEnd) + more);
  }

  /** The main result. For complete sub-streams led by a schema that fits the limit, and for
      every cut of their bytes (boundaries anywhere, empty blocks and idle polls included), a
      reader gets the first sub-stream's schema, all batches in order, and a clean end. */
  lemma ConcatenatedStreamsFetch(c: Codec, streams: seq<SubStream>, a: seq<Arrival>)
    requires streams != [] && forall i | 0 <= i < |streams| :: Complete(c, streams[i])
    requires LeadsWithSchema(c, streams[0])
    requires |Prefix(streams[0].frames[0])| + |streams[0].frames[0].metadata| <= MAXIMUM_SCHEMA_BUFFER_SIZE + 1
    requires CutOf(a, EncodeAll(c, streams))
    ensures Fetch(c, a) ==
      Fetched(c.schemaOf(streams[0].frames[0].metadata), Output(AllBatches(c, streams), None))
  {
    LeadingSchemaIsSniffed(c, streams[0], EncodeAll(c, streams[1..]));
    assert [] + Content(a) == Content(a);
    OpeningFinds(c, [], a, Sniff(c, Content(a)).value);
    ConcatenatedStreamsDecode(c, streams);
  }
}
