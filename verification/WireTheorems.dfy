/** Round trip, framing and prefixes of messages on the wire. */
module WireTheorems {
  import opened Wrappers
  import opened WireBytes
  import opened WireHeader
  import opened WireMeta
  import opened WireFrame
  import opened WireCodec
  import BufferPool

  /** A message that is sent, with the order in which its metadata is iterated. */
  datatype Sent = Sent(msg: Msg, order: seq<Pair>)

  ghost function MetaOf(x: Sent): Bytes {
    EncodePairs(x.order)
  }

  ghost function Out(cs: Compressors, x: Sent): Bytes
    requires IsHeader(x.msg.header)
  {
    PayloadOut(cs, x.msg.header, x.msg.payload)
  }

  /** The bytes EncodeSlicePointer returns. */
  ghost function Wire(cs: Compressors, x: Sent): (r: Bytes)
    requires IsHeader(x.msg.header)
    ensures |r| == 32 + |x.msg.path| + |x.msg.name| + |MetaOf(x)| + |Out(cs, x)|
  {
    Frame(HeaderOut(cs, x.msg.header, x.msg.payload), x.msg.path, x.msg.name, MetaOf(x), Out(cs, x))
  }

  /** The message as it arrives: the same, but without compression where that did not work. */
  ghost function Arrives(cs: Compressors, x: Sent): Msg
    requires IsHeader(x.msg.header)
  {
    x.msg.(header := HeaderOut(cs, x.msg.header, x.msg.payload))
  }

  ghost predicate UnzipUndoesZip(cs: Compressors, ct: nat) {
    ct != 0 && ct in cs ==> Inverse(cs[ct])
  }

  /** An rpcx message whose lengths fit uint32 and the receiver's limit. */
  ghost predicate Sendable(cs: Compressors, max: int, x: Sent) {
    && IsHeader(x.msg.header) && x.msg.header[0] == MAGIC && Enumerates(x.order, x.msg.meta)
    && |Wire(cs, x)| - 16 < TWO_32 && (max > 0 ==> |Wire(cs, x)| - 16 <= max)
    && UnzipUndoesZip(cs, CompressType(x.msg.header))
  }

  /** A new message can be sent. */
  lemma NewMessageIsSendable(cs: Compressors)
    ensures Sendable(cs, 0, Sent(Msg([MAGIC] + seq(11, _ => 0), [], [], map[], []), []))
  {
    var h: Bytes := [MAGIC] + seq(11, _ => 0);
    assert CompressType(h) == 0;
    assert Wire(cs, Sent(Msg(h, [], [], map[], []), [])) == Frame(h, [], [], [], []);
  }

  // ---------------------------------------------------------------- sections

  lemma {:induction false} ShortIfEncodedShort(ps: seq<Pair>)
    requires |EncodePairs(ps)| < TWO_32
    ensures AllShort(ps)
  {
    if ps != [] {
      ShortIfEncodedShort(ps[1..]);
      forall i | 0 <= i < |ps| ensures Short(ps[i]) {
        if i > 0 { assert ps[i] == ps[1..][i - 1]; }
      }
    }
  }

  /** The metadata section decodes to the metadata. */
  lemma MetaRoundTrip(ps: seq<Pair>, m: map<Bytes, Bytes>)
    requires Enumerates(ps, m) && |EncodePairs(ps)| < TWO_32
    ensures MetaAfter(map[], EncodePairs(ps)) == Some(m)
  {
    ShortIfEncodedShort(ps);
    ParseOfEncoded(ps);
    LastWinsOfListing(ps, m);
  }

  /** What the sender compressed, or did not, is undone. */
  lemma PayloadRoundTrip(cs: Compressors, x: Sent, size: nat)
    requires IsHeader(x.msg.header) && UnzipUndoesZip(cs, CompressType(x.msg.header))
    ensures Unzipped(cs, Arrives(cs, x).(payload := Out(cs, x)), size) == Fine(Arrives(cs, x), size)
  {
    var h := x.msg.header;
    FlagByteParts(MessageTypeOf(h[2]), HeartbeatOf(h[2]), OnewayOf(h[2]), 0, StatusTypeOf(h[2]));
  }

  lemma FrameParts(h: Bytes, path: Bytes, name: Bytes, meta: Bytes, payload: Bytes, rest: Bytes)
    requires IsHeader(h)
    ensures var f := Frame(h, path, name, meta, payload) + rest; var total := 16 + |path| + |name| + |meta| + |payload|;
            && f[..12] == h && f[16..16 + total] == Laid(path, name, meta, Prefixed(payload)) && f[16 + total..] == rest
            && f[0] == h[0] && Get32(f, 12) == Len32(total)
  {
    var total := 16 + |path| + |name| + |meta| + |payload|;
    var f := Frame(h, path, name, meta, payload) + rest;
    assert f == h + Put32(Len32(total)) + (Body(path, name, meta, payload) + rest);
    Get32Concat(h, Len32(total), Body(path, name, meta, payload) + rest);
  }

  // ---------------------------------------------------------------- round trip

  /** Decoding what was encoded returns the message, whatever follows it, and takes just its bytes. */
  lemma RoundTrip(cs: Compressors, max: int, x: Sent, rest: Bytes)
    requires Sendable(cs, max, x)
    ensures Judge(cs, max, map[], Wire(cs, x) + rest) == Fine(Arrives(cs, x), |Wire(cs, x)|)
  {
    var h, p := HeaderOut(cs, x.msg.header, x.msg.payload), Out(cs, x);
    FrameParts(h, x.msg.path, x.msg.name, MetaOf(x), p, rest);
    MetaRoundTrip(x.order, x.msg.meta);
    PartsOfLaid(h, x.msg.path, x.msg.name, MetaOf(x), p);
    PayloadRoundTrip(cs, x, |Wire(cs, x)|);
  }

  lemma PartsOfLaid(h: Bytes, path: Bytes, name: Bytes, meta: Bytes, p: Bytes)
    requires |path| < TWO_32 && |name| < TWO_32 && |meta| < TWO_32 && MetaAfter(map[], meta).Some?
    ensures var body := Laid(path, name, meta, Prefixed(p));
            Parts(map[], h, body, |body|) == Some(Msg(h, path, name, MetaAfter(map[], meta).value, p))
  {
    SplitOfLaid(path, name, meta, Prefixed(p), Laid(path, name, meta, Prefixed(p)));
    assert Prefixed(p)[4..] == p;
  }

  /** EncodeSlicePointer on one side and Decode into a new message on the other: the message arrives,
      whatever the pool's buffer held and in whatever order the metadata is iterated. */
  method SendAndReceive(m: Message, cs: Compressors, pool: BufferPool.LimitedPool, which: nat, max: int)
    returns (c: Message, err: Option<DecodeErr>, size: nat)
    requires m.Valid() && pool.Valid() && BufferPool.Out(pool.free, m.header)
    requires forall order :: Enumerates(order, m.metadata) ==> Sendable(cs, max, Sent(m.Value(), order))
    modifies pool, m.header, set i, k | 0 <= i < |pool.free| && 0 <= k < |pool.free[i]| :: pool.free[i][k].data
    ensures fresh(c) && err.None?
    ensures c.Value() == old(m.Value()).(header := HeaderOut(cs, old(m.header[..]), m.payload))
  {
    ghost var sent := m.Value();
    var b, order := m.EncodeSlicePointer(cs, pool, which);
    ghost var x := Sent(sent, order);
    var input := b.data[..b.len];
    assert Sendable(cs, max, x);
    RoundTrip(cs, max, x, []);
    assert input == Wire(cs, x) + [];
    c := new Message();
    var recovered;
    err, recovered, size := c.Decode(cs, max, input);
  }

  /** Every strict prefix of an encoded message is refused. */
  lemma PrefixRefused(cs: Compressors, max: int, x: Sent, before: map<Bytes, Bytes>, input: Bytes)
    requires Sendable(cs, max, x) && input < Wire(cs, x)
    ensures Judge(cs, max, before, input) == Refused(Eof)
  {
    FrameParts(HeaderOut(cs, x.msg.header, x.msg.payload), x.msg.path, x.msg.name, MetaOf(x), Out(cs, x), []);
    var f := Wire(cs, x);
    assert f + [] == f;
    if |input| >= 16 {
      assert input == f[..|input|];
      Get32Slice(f, 0, |input|, 12);
    }
  }

  // ---------------------------------------------------------------- framing

  /** Decode again and again until the input is used up. */
  ghost function ReadAll(cs: Compressors, max: int, input: Bytes): Option<seq<Msg>>
    decreases |input|
  {
    if input == [] then Some([])
    else
      var v := Judge(cs, max, map[], input);
      if !v.Fine? || v.size == 0 || v.size > |input| then None
      else
        var more := ReadAll(cs, max, input[v.size..]);
        if more.None? then None else Some([v.msg] + more.value)
  }

  ghost predicate AllHeaders(xs: seq<Sent>) {
    forall i :: 0 <= i < |xs| ==> IsHeader(xs[i].msg.header)
  }

  ghost predicate AllSendable(cs: Compressors, max: int, xs: seq<Sent>) {
    forall i :: 0 <= i < |xs| ==> Sendable(cs, max, xs[i])
  }

  ghost function Stream(cs: Compressors, xs: seq<Sent>): Bytes
    requires AllHeaders(xs)
  {
    if xs == [] then [] else Wire(cs, xs[0]) + Stream(cs, xs[1..])
  }

  ghost function AllArrive(cs: Compressors, xs: seq<Sent>): seq<Msg>
    requires AllHeaders(xs)
  {
    if xs == [] then [] else [Arrives(cs, xs[0])] + AllArrive(cs, xs[1..])
  }

  lemma ReadFirst(cs: Compressors, max: int, x: Sent, rest: Bytes)
    requires Sendable(cs, max, x) && ReadAll(cs, max, rest).Some?
    requires Judge(cs, max, map[], Wire(cs, x) + rest) == Fine(Arrives(cs, x), |Wire(cs, x)|)
    ensures ReadAll(cs, max, Wire(cs, x) + rest) == Some([Arrives(cs, x)] + ReadAll(cs, max, rest).value)
  {
    assert (Wire(cs, x) + rest)[|Wire(cs, x)|..] == rest;
  }

  /** Any number of messages one after the other are read back as exactly these, in order. */
  lemma {:induction false} Framing(cs: Compressors, max: int, xs: seq<Sent>)
    requires AllHeaders(xs) && AllSendable(cs, max, xs)
    ensures ReadAll(cs, max, Stream(cs, xs)) == Some(AllArrive(cs, xs))
  {
    if xs != [] {
      assert Sendable(cs, max, xs[0]);
      Framing(cs, max, xs[1..]);
      RoundTrip(cs, max, xs[0], Stream(cs, xs[1..]));
      ReadFirst(cs, max, xs[0], Stream(cs, xs[1..]));
    }
  }

  lemma StreamFrom(cs: Compressors, max: int, xs: seq<Sent>, i: nat)
    requires AllHeaders(xs) && AllSendable(cs, max, xs) && i <= |xs|
    ensures AllHeaders(xs[i..]) && (Stream(cs, xs[i..]) == [] <==> i == |xs|)
    ensures i < |xs| ==>
      && Stream(cs, xs[i..]) == Wire(cs, xs[i]) + Stream(cs, xs[i + 1..])
      && Judge(cs, max, map[], Stream(cs, xs[i..])) == Fine(Arrives(cs, xs[i]), |Wire(cs, xs[i])|)
  {
    if i < |xs| {
      assert xs[i..][1..] == xs[i + 1..] && Sendable(cs, max, xs[i]);
      RoundTrip(cs, max, xs[i], Stream(cs, xs[i + 1..]));
    }
  }

  /** All but the first i messages are left in the stream. */
  ghost predicate Left(cs: Compressors, max: int, xs: seq<Sent>, i: nat, rest: Bytes) {
    AllHeaders(xs) && AllSendable(cs, max, xs) && i <= |xs| && AllHeaders(xs[i..]) && rest == Stream(cs, xs[i..])
  }

  lemma NoneLeft(cs: Compressors, max: int, xs: seq<Sent>, i: nat)
    requires Left(cs, max, xs, i, [])
    ensures i == |xs|
  {
    StreamFrom(cs, max, xs, i);
  }

  /** The i-th message sent arrives as m. */
  ghost predicate ArrivesAs(cs: Compressors, xs: seq<Sent>, i: nat, m: Msg) {
    i < |xs| && IsHeader(xs[i].msg.header) && m == Arrives(cs, xs[i])
  }

  method ReceiveOne(cs: Compressors, max: int, input: Bytes, ghost xs: seq<Sent>, ghost i: nat)
    returns (c: Message, rest: Bytes)
    requires Left(cs, max, xs, i, input) && input != []
    ensures Left(cs, max, xs, i + 1, rest) && fresh(c) && fresh(c.header) && ArrivesAs(cs, xs, i, c.Value())
  {
    StreamFrom(cs, max, xs, i);
    c := new Message();
    var err, recovered, size := c.Decode(cs, max, input);
    rest := input[size..];
  }

  /** Decode itself, into new messages until the stream is used up: the messages sent, in order. */
  method ReceiveAll(cs: Compressors, max: int, input: Bytes, ghost xs: seq<Sent>) returns (got: seq<Message>)
    requires Left(cs, max, xs, 0, input)
    ensures |got| == |xs| && forall i :: 0 <= i < |got| ==> fresh(got[i]) && ArrivesAs(cs, xs, i, got[i].Value())
  {
    got := [];
    var rest := input;
    while rest != []
      invariant Left(cs, max, xs, |got|, rest)
      invariant forall i :: 0 <= i < |got| ==> fresh(got[i]) && ArrivesAs(cs, xs, i, got[i].Value())
      decreases |xs| - |got|
    {
      var c;
      c, rest := ReceiveOne(cs, max, rest, xs, |got|);
      got := got + [c];
    }
    NoneLeft(cs, max, xs, |got|);
  }

  // ---------------------------------------------------------------- what parses

  /** The layout of a body: path, method name, a list of complete pairs, four bytes, a payload. */
  ghost predicate WellFormed(body: Bytes) {
    exists path: Bytes, name: Bytes, ps: seq<Pair>, tail: Bytes ::
      && |path| < TWO_32 && |name| < TWO_32 && AllShort(ps) && |EncodePairs(ps)| < TWO_32 && |tail| >= 4
      && body == Laid(path, name, EncodePairs(ps), tail)
  }

  lemma LaidParses(before: map<Bytes, Bytes>, h: Bytes,
                   path: Bytes, name: Bytes, ps: seq<Pair>, tail: Bytes, body: Bytes)
    requires |path| < TWO_32 && |name| < TWO_32 && AllShort(ps) && |EncodePairs(ps)| < TWO_32 && |tail| >= 4
    requires body == Laid(path, name, EncodePairs(ps), tail)
    ensures Parts(before, h, body, |body|).Some?
  {
    SplitOfLaid(path, name, EncodePairs(ps), tail, body);
    ParseOfEncoded(ps);
  }

  lemma WellFormedParses(cs: Compressors, before: map<Bytes, Bytes>, h: Bytes, body: Bytes)
    requires IsHeader(h) && WellFormed(body)
    ensures !JudgeBody(cs, before, h, body).Malformed?
  {
    var path: Bytes, name: Bytes, ps: seq<Pair>, tail: Bytes :|
      && |path| < TWO_32 && |name| < TWO_32 && AllShort(ps) && |EncodePairs(ps)| < TWO_32 && |tail| >= 4
      && body == Laid(path, name, EncodePairs(ps), tail);
    LaidParses(before, h, path, name, ps, tail, body);
  }

  /** Decode parses a body exactly if it is well formed; otherwise it ends in ErrMetaKVMissing or in
      a nil error over a message that was not filled in. */
  lemma ParsedIffWellFormed(cs: Compressors, before: map<Bytes, Bytes>, h: Bytes, body: Bytes)
    requires IsHeader(h)
    ensures JudgeBody(cs, before, h, body).Malformed? <==> !WellFormed(body)
  {
    if WellFormed(body) {
      WellFormedParses(cs, before, h, body);
    } else if !JudgeBody(cs, before, h, body).Malformed? {
      BodyOfSplit(body);
      ParsedIsWellFormed(before, Split(body, |body|).value, body);
    }
  }

  lemma ParsedIsWellFormed(before: map<Bytes, Bytes>, x: Sections, body: Bytes)
    requires |x.path| < TWO_32 && |x.name| < TWO_32 && |x.meta| < TWO_32 && MetaAfter(before, x.meta).Some?
    requires var c := 12 + |x.path| + |x.name| + |x.meta|;
             c + 4 <= |body| && body == Laid(x.path, x.name, x.meta, body[c..])
    ensures WellFormed(body)
  {
    var c := 12 + |x.path| + |x.name| + |x.meta|;
    var ps := if x.meta == [] then [] else ParsePairs(x.meta).value;
    if x.meta != [] { EncodedOfParse(x.meta); }
    assert EncodePairs(ps) == x.meta;
    assert body == Laid(x.path, x.name, EncodePairs(ps), body[c..]);
  }

  /** A header that announces an empty body is an input for which Decode into a new message returns
      nil without a message. */
  lemma EmptyBodyIsMalformed(cs: Compressors, before: map<Bytes, Bytes>, h: Bytes)
    requires IsHeader(h) && h[0] == MAGIC
    ensures Judge(cs, 0, before, h + Put32(0)) == Malformed(16) && DecodeOverruns([], h + Put32(0))
  {
    Get32Concat(h, 0, []);
    assert h + Put32(0) + [] == h + Put32(0);
    assert (h + Put32(0))[..12] == h && (h + Put32(0))[16..16] == [];
  }

  lemma HalfPairMisses(data: Bytes)
    requires |data| >= 4 && Get32(data, 0) == 0
    ensures !MetaPanics(data, 4) && ParseOne(data[..4]).None? && ParsePairs(data[..4]).None?
  {
    Get32Slice(data, 0, 4, 0);
    assert data[0..4] == data[..4];
  }

  lemma HalfPairSection(payload: Bytes, body: Bytes)
    requires body == Laid([], [], Put32(0), Prefixed(payload))
    ensures |body| >= 20 && EndsOf(body, |body|) == Some(Ends(4, 8, 16))
    ensures !TailOverruns(body, |body|, 12, 16) && body[12..16] != [] && ParsePairs(body[12..16]).None?
  {
    var tail := Prefixed(payload);
    EndsOfLaid([], [], Put32(0), tail, body);
    var data := body[12..];
    Get32Concat([], 0, tail);
    assert data == [] + Put32(0) + tail;
    HalfPairMisses(data);
    assert data[..4] == body[12..16];
  }

  lemma NoPartsWithoutMeta(cs: Compressors, before: map<Bytes, Bytes>, h: Bytes, body: Bytes, e: Ends)
    requires IsHeader(h) && EndsOf(body, |body|) == Some(e) && MetaAfter(before, body[e.b + 4..e.c]).None?
    ensures JudgeBody(cs, before, h, body).Malformed?
  {
    PartsByEnds(before, h, body, |body|, e);
    PartsAtIs(before, h, body, |body|, e, None);
  }

  /** A metadata section that ends in the middle of a pair is one for which it returns ErrMetaKVMissing. */
  lemma HalfPairIsReported(cs: Compressors, before: map<Bytes, Bytes>, h: Bytes, payload: Bytes)
    requires IsHeader(h)
    ensures var body := Laid([], [], Put32(0), Prefixed(payload));
            JudgeBody(cs, before, h, body).Malformed? && !Overruns(body, |body|)
  {
    var body := Laid([], [], Put32(0), Prefixed(payload));
    HalfPairSection(payload, body);
    NoPartsWithoutMeta(cs, before, h, body, Ends(4, 8, 16));
    OverrunsByEnds(body, |body|, Ends(4, 8, 16));
  }

  /** For the same order of the metadata and a writer without limit, WriteTo writes the bytes that
      EncodeSlicePointer returns exactly if the payload needs no compressor or its compressor exists and
      works.  Otherwise it stops after the header, and EncodeSlicePointer's bytes say no compression. */
  lemma EncodersAgreeIff(cs: Compressors, h: Bytes, path: Bytes, name: Bytes, meta: Bytes, payload: Bytes)
    requires IsHeader(h)
    ensures var works := Zipped(cs, CompressType(h), payload).Some?;
            && (Written(cs, h, path, name, meta, payload) == Encoded(cs, h, path, name, meta, payload) <==> works)
            && (!works ==> Written(cs, h, path, name, meta, payload) == h)
            && (!works ==> CompressType(Encoded(cs, h, path, name, meta, payload)[..12]) == 0)
  {
    FlagByteParts(MessageTypeOf(h[2]), HeartbeatOf(h[2]), OnewayOf(h[2]), 0, StatusTypeOf(h[2]));
    var f := Encoded(cs, h, path, name, meta, payload);
    assert f[..12] == HeaderOut(cs, h, payload);
    assert |f| >= 32;
  }

  /** WriteTo of a new message writes 32 bytes and counts none. */
  method NewMessageCountsNothing(cs: Compressors) returns (n: nat, out: Bytes)
    ensures n == 0 && |out| == 32
  {
    var m := new Message();
    var w := new Writer(None);
    var ok;
    ghost var order;
    n, ok, order := m.WriteTo(cs, w);
    assert order == [] && CompressType(m.header[..]) == 0;
    out := w.out;
  }

  /** A header that asks for a compressor when there is none is an input for which they do not. */
  lemma EncodersCanDiffer(path: Bytes, name: Bytes, meta: Bytes, payload: Bytes)
    ensures var h := [MAGIC, 0, 4, 0, 0, 0, 0, 0, 0, 0, 0, 0];
            && Written(map[], h, path, name, meta, payload) == h
            && Written(map[], h, path, name, meta, payload) != Encoded(map[], h, path, name, meta, payload)
  {
    EncodersAgreeIff(map[], [MAGIC, 0, 4, 0, 0, 0, 0, 0, 0, 0, 0, 0], path, name, meta, payload);
  }
}
