/** Messages on the wire: encoding into a recycled buffer, writing to a stream, decoding. */
module WireFrame {
  import opened Wrappers
  import opened WireBytes
  import opened WireMeta

  /** The bytes of a message: header, length of the rest, and four length-prefixed sections. */
  function Frame(h: Bytes, path: Bytes, name: Bytes, meta: Bytes, payload: Bytes): (r: Bytes)
    ensures |r| == |h| + 20 + |path| + |name| + |meta| + |payload|
  {
    h + Put32(Len32(16 + |path| + |name| + |meta| + |payload|)) + Body(path, name, meta, payload)
  }

  function Body(path: Bytes, name: Bytes, meta: Bytes, payload: Bytes): (r: Bytes)
    ensures |r| == 16 + |path| + |name| + |meta| + |payload|
  {
    Prefixed(path) + Prefixed(name) + Prefixed(meta) + Prefixed(payload)
  }

  datatype Sections = Sections(path: Bytes, name: Bytes, meta: Bytes, payload: Bytes)

  /** The end of the section that starts at n, if it is complete before total. */
  function SectionEnd(buf: Bytes, total: nat, n: nat): (r: Option<nat>)
    requires total <= |buf|
    ensures r.Some? ==> n + 4 <= r.value <= total
  {
    if n + 4 > total || n + 4 + Get32(buf, n) > total then None else Some(n + 4 + Get32(buf, n))
  }

  /** Where path, method name and metadata end. */
  datatype Ends = Ends(a: nat, b: nat, c: nat)

  function EndsOf(buf: Bytes, total: nat): (r: Option<Ends>)
    requires total <= |buf|
    ensures r.Some? ==> 4 <= r.value.a && r.value.a + 4 <= r.value.b && r.value.b + 4 <= r.value.c <= total
    ensures r.Some? ==> r.value.c - r.value.b - 4 < TWO_32
  {
    var a := SectionEnd(buf, total, 0);
    if a.None? then None
    else
      var b := SectionEnd(buf, total, a.value);
      if b.None? then None
      else
        var c := SectionEnd(buf, total, b.value);
        if c.None? then None else Some(Ends(a.value, b.value, c.value))
  }

  /** The sections of the first total bytes; the payload is what follows its length, whatever that
      says. */
  function Split(buf: Bytes, total: nat): (r: Option<Sections>)
    requires total <= |buf|
  {
    var e := EndsOf(buf, total);
    if e.None? || e.value.c + 4 > total then None else Some(Cut(buf, total, e.value.a, e.value.b, e.value.c))
  }

  function Cut(buf: Bytes, total: nat, a: nat, b: nat, c: nat): Sections
    requires 4 <= a && a + 4 <= b && b + 4 <= c && c + 4 <= total <= |buf|
  {
    Sections(buf[4..a], buf[a + 4..b], buf[b + 4..c], buf[c + 4..total])
  }

  lemma SectionEndOf(s: Bytes, b: Bytes, t: Bytes)
    requires |b| < TWO_32
    ensures var buf := s + Prefixed(b) + t; SectionEnd(buf, |buf|, |s|) == Some(|s| + 4 + |b|)
  {
    assert s + Prefixed(b) + t == s + Put32(|b|) + (b + t);
    Get32Concat(s, |b|, b + t);
  }

  /** Three length-prefixed sections and a tail. */
  function Laid(path: Bytes, name: Bytes, meta: Bytes, tail: Bytes): Bytes {
    Prefixed(path) + Prefixed(name) + Prefixed(meta) + tail
  }

  lemma CutOfLaid(path: Bytes, name: Bytes, meta: Bytes, tail: Bytes)
    requires |tail| >= 4
    ensures var a := 4 + |path|; var b := a + 4 + |name|; var c := b + 4 + |meta|;
            var body := Laid(path, name, meta, tail);
            Cut(body, |body|, a, b, c) == Sections(path, name, meta, tail[4..])
  {
  }

  lemma EndsOfLaid(path: Bytes, name: Bytes, meta: Bytes, tail: Bytes, body: Bytes)
    requires |path| < TWO_32 && |name| < TWO_32 && |meta| < TWO_32 && body == Laid(path, name, meta, tail)
    ensures EndsOf(body, |body|) == Some(Ends(4 + |path|, 8 + |path| + |name|, 12 + |path| + |name| + |meta|))
  {
    var p, n, m := Prefixed(path), Prefixed(name), Prefixed(meta);
    assert body == [] + p + (n + m + tail);
    SectionEndOf([], path, n + m + tail);
    assert body == p + n + (m + tail);
    SectionEndOf(p, name, m + tail);
    SectionEndOf(p + n, meta, tail);
  }

  /** Splitting undoes laying out, whatever the payload's length says. */
  lemma SplitOfLaid(path: Bytes, name: Bytes, meta: Bytes, tail: Bytes, body: Bytes)
    requires |path| < TWO_32 && |name| < TWO_32 && |meta| < TWO_32 && |tail| >= 4
    requires body == Laid(path, name, meta, tail)
    ensures Split(body, |body|) == Some(Sections(path, name, meta, tail[4..]))
  {
    EndsOfLaid(path, name, meta, tail, body);
    CutOfLaid(path, name, meta, tail);
  }

  lemma LaidAt(body: Bytes, a: nat, b: nat, c: nat)
    requires 4 <= a && a + 4 <= b && b + 4 <= c <= |body|
    requires a == 4 + Get32(body, 0) && b == a + 4 + Get32(body, a) && c == b + 4 + Get32(body, b)
    ensures body == Laid(body[4..a], body[a + 4..b], body[b + 4..c], body[c..])
  {
    PrefixedAt(body, 0, a);
    PrefixedAt(body, a, b);
    PrefixedAt(body, b, c);
    assert body == body[0..a] + body[a..b] + body[b..c] + body[c..];
  }

  /** Whatever splits is laid out like a body, but for the four bytes of the payload's length. */
  lemma BodyOfSplit(body: Bytes)
    requires Split(body, |body|).Some?
    ensures var x := Split(body, |body|).value; var c := 12 + |x.path| + |x.name| + |x.meta|;
            && |x.path| < TWO_32 && |x.name| < TWO_32 && |x.meta| < TWO_32
            && c + 4 <= |body| && body == Laid(x.path, x.name, x.meta, body[c..]) && body[c + 4..] == x.payload
  {
    var e := EndsOf(body, |body|).value;
    LaidAt(body, e.a, e.b, e.c);
  }

  lemma SectionWithin(buf: Bytes, total: nat, n: nat)
    requires total <= |buf|
    ensures SectionEnd(buf, total, n) == SectionEnd(buf[..total], total, n)
  {
    if n + 4 <= total { assert Get32(buf[..total], n) == Get32(buf, n); }
  }

  lemma EndsWithin(buf: Bytes, total: nat)
    requires total <= |buf|
    ensures EndsOf(buf, total) == EndsOf(buf[..total], total)
  {
    SectionWithin(buf, total, 0);
    var a := SectionEnd(buf, total, 0);
    if a.Some? {
      SectionWithin(buf, total, a.value);
      var b := SectionEnd(buf, total, a.value);
      if b.Some? { SectionWithin(buf, total, b.value); }
    }
  }

  /** Sections that are complete within the capacity end there within total or not at all. */
  lemma EndsShrink(buf: Bytes, total: nat)
    requires total <= |buf|
    ensures var e := EndsOf(buf, |buf|);
            EndsOf(buf, total) == if e.Some? && e.value.c <= total then e else None
  {
  }

  lemma CutWithin(buf: Bytes, total: nat, a: nat, b: nat, c: nat)
    requires 4 <= a && a + 4 <= b && b + 4 <= c && c + 4 <= total <= |buf|
    ensures Cut(buf[..total], total, a, b, c) == Cut(buf, total, a, b, c)
  {
    var s := buf[..total];
    assert s[4..a] == buf[4..a] && s[a + 4..b] == buf[a + 4..b] && s[b + 4..c] == buf[b + 4..c];
    assert s[c + 4..total] == buf[c + 4..total];
  }
}

module WireCodec {
  import opened Wrappers
  import opened WireBytes
  import opened WireHeader
  import opened WireMeta
  import opened WireFrame
  import opened BufferPool

  /** A compressor: None where Zip or Unzip returns an error. */
  datatype Compressor = Compressor(zip: Bytes -> Option<Bytes>, unzip: Bytes -> Option<Bytes>)

  type Compressors = map<nat, Compressor>

  ghost predicate Inverse(c: Compressor) {
    forall p: Bytes :: c.zip(p).Some? ==> c.unzip(c.zip(p).value) == Some(p)
  }

  /** The payload as it is written: None if its compressor is unknown or fails. */
  function Zipped(cs: Compressors, ct: nat, payload: Bytes): Option<Bytes> {
    if ct == 0 then Some(payload) else if ct in cs then cs[ct].zip(payload) else None
  }

  /** The header and payload EncodeSlicePointer writes: without compression, if it does not work. */
  function HeaderOut(cs: Compressors, h: Bytes, payload: Bytes): (r: Bytes)
    requires IsHeader(h)
    ensures IsHeader(r)
  {
    if Zipped(cs, CompressType(h), payload).Some? then h else SetCompressTypeOf(h, 0)
  }

  function PayloadOut(cs: Compressors, h: Bytes, payload: Bytes): Bytes
    requires IsHeader(h)
  {
    var z := Zipped(cs, CompressType(h), payload);
    if z.Some? then z.value else payload
  }

  // ---------------------------------------------------------------- writing

  /** What EncodeSlicePointer returns for metadata bytes meta. */
  function Encoded(cs: Compressors, h: Bytes, path: Bytes, name: Bytes, meta: Bytes, payload: Bytes): Bytes
    requires IsHeader(h)
  {
    Frame(HeaderOut(cs, h, payload), path, name, meta, PayloadOut(cs, h, payload))
  }

  /** What WriteTo writes, if it is let: nothing but the header, if the compressor does not work. */
  function Written(cs: Compressors, h: Bytes, path: Bytes, name: Bytes, meta: Bytes, payload: Bytes): Bytes
    requires IsHeader(h)
  {
    var z := Zipped(cs, CompressType(h), payload);
    if z.Some? then Frame(h, path, name, meta, z.value) else h
  }

  /** The count WriteTo returns when written bytes have been taken and the payload starts at at: that
      of the header until the payload's turn, and then that of the payload. */
  function Counted(written: nat, at: nat): nat {
    if written <= 12 then written else if written < at then 12 else written - at
  }

  /** It is the count of all that was written exactly if that is no more than the header. */
  lemma CountsAllIff(written: nat, at: nat)
    requires at >= 32
    ensures Counted(written, at) == written <==> written <= 12
  {
  }

  /** copy(data[at:], src) for a source that fits. */
  method CopyAt(data: array<byte>, at: nat, src: Bytes)
    requires at + |src| <= data.Length
    modifies data
    ensures data[..at + |src|] == old(data[..at]) + src
    ensures data[at + |src|..] == old(data[at + |src|..])
  {
    for i := 0 to |src|
      invariant data[..at] == old(data[..at])
      invariant data[at..at + i] == src[..i]
      invariant data[at + |src|..] == old(data[at + |src|..])
    {
      data[at + i] := src[i];
    }
    assert data[..at + |src|] == data[..at] + data[at..at + |src|];
  }

  /** A length, as uint32, and the bytes it counts. */
  method PrefixedAt32(data: array<byte>, at: nat, src: Bytes)
    requires at + 4 + |src| <= data.Length
    modifies data
    ensures data[..at + 4 + |src|] == old(data[..at]) + Prefixed(src)
  {
    CopyAt(data, at, Put32(Len32(|src|)));
    CopyAt(data, at + 4, src);
  }

  /** The four sections, each after the one before. */
  method FillBody(data: array<byte>, at: nat, path: Bytes, name: Bytes, meta: Bytes, payload: Bytes)
    requires at + |Body(path, name, meta, payload)| <= data.Length
    modifies data
    ensures data[..at + |Body(path, name, meta, payload)|] == old(data[..at]) + Body(path, name, meta, payload)
  {
    PrefixedAt32(data, at, path);
    PrefixedAt32(data, at + 4 + |path|, name);
    PrefixedAt32(data, at + 8 + |path| + |name|, meta);
    PrefixedAt32(data, at + 12 + |path| + |name| + |meta|, payload);
    Regroup(old(data[..at]), Prefixed(path), Prefixed(name), Prefixed(meta), Prefixed(payload));
  }

  lemma Regroup(a: Bytes, b: Bytes, c: Bytes, d: Bytes, e: Bytes)
    ensures a + b + c + d + e == a + (b + c + d + e)
  {
  }

  /** The index writes of EncodeSlicePointer: they cover the message, whatever the buffer held. */
  method FillFrame(data: array<byte>, h: Bytes, path: Bytes, name: Bytes, meta: Bytes, payload: Bytes)
    requires |Frame(h, path, name, meta, payload)| <= data.Length
    modifies data
    ensures data[..|Frame(h, path, name, meta, payload)|] == Frame(h, path, name, meta, payload)
  {
    CopyAt(data, 0, h);
    CopyAt(data, |h|, Put32(Len32(16 + |path| + |name| + |meta| + |payload|)));
    FillBody(data, |h| + 4, path, name, meta, payload);
  }

  /** A writer that accepts what it is given until it fails. */
  class Writer {
    var out: Bytes
    var room: Option<nat>

    constructor (room: Option<nat>)
      ensures out == [] && this.room == room
    {
      out, this.room := [], room;
    }

    /** Takes all of b, or as much as there is room for and fails. */
    method Write(b: Bytes) returns (n: nat, ok: bool)
      modifies this
      ensures n <= |b| && out == old(out) + b[..n] && (ok <==> n == |b|)
      ensures old(room).None? ==> ok && room.None?
    {
      if room.None? || |b| <= room.value {
        out := out + b;
        room := if room.None? then None else Some(room.value - |b|);
        return |b|, true;
      }
      n := room.value;
      out := out + b[..n];
      room := Some(0);
      ok := false;
    }
  }

  /** One write of a stream that is to become start + whole and has come to start + done. */
  method Send(w: Writer, b: Bytes, ghost start: Bytes, ghost done: Bytes, ghost whole: Bytes) returns (n: nat, ok: bool)
    requires w.out == start + done && done + b <= whole
    modifies w
    ensures ok ==> w.out == start + (done + b) && n == |b|
    ensures !ok ==> start <= w.out < start + whole && |w.out| == |start| + |done| + n && n < |b|
    ensures old(w.room).None? ==> ok && w.room.None?
  {
    n, ok := w.Write(b);
    assert w.out == start + (done + b[..n]);
    if !ok { assert (done + b)[..|done| + n] == done + b[..n]; }
  }

  method SendPrefixed(w: Writer, b: Bytes, ghost start: Bytes, ghost done: Bytes, ghost whole: Bytes) returns (ok: bool)
    requires w.out == start + done && done + Prefixed(b) <= whole
    modifies w
    ensures ok ==> w.out == start + (done + Prefixed(b))
    ensures !ok ==> start <= w.out < start + whole && |start| + |done| <= |w.out| < |start| + |done| + 4 + |b|
    ensures old(w.room).None? ==> ok && w.room.None?
  {
    ghost var len := Put32(Len32(|b|));
    assert done + Prefixed(b) == done + len + b;
    var n;
    n, ok := Send(w, Put32(Len32(|b|)), start, done, whole);
    if !ok { return; }
    n, ok := Send(w, b, start, done + len, whole);
  }

  lemma FramePrefixes(h: Bytes, path: Bytes, name: Bytes, meta: Bytes, payload: Bytes)
    ensures var f := Frame(h, path, name, meta, payload);
            var t := h + Put32(Len32(16 + |path| + |name| + |meta| + |payload|));
            && h <= f && t <= f && t + Prefixed(path) <= f && t + Prefixed(path) + Prefixed(name) <= f
            && t + Prefixed(path) + Prefixed(name) + Prefixed(meta) <= f
            && t + Prefixed(path) + Prefixed(name) + Prefixed(meta) + Prefixed(payload) == f
  {
    var t := h + Put32(Len32(16 + |path| + |name| + |meta| + |payload|));
    Regroup(t, Prefixed(path), Prefixed(name), Prefixed(meta), Prefixed(payload));
  }

  lemma FrameBegins(h: Bytes, n: nat, path: Bytes, name: Bytes, meta: Bytes, payload: Bytes)
    requires n < |h|
    ensures h[..n] < h && h[..n] < Frame(h, path, name, meta, payload)
  {
    var f := Frame(h, path, name, meta, payload);
    assert f[..|h|] == h && f[..n] == h[..n];
  }

  // ---------------------------------------------------------------- reading

  datatype DecodeErr = Eof | WrongMagic | TooLong | MetaMissing | Unsupported | UnzipFailed

  datatype Msg = Msg(header: Bytes, path: Bytes, name: Bytes, meta: map<Bytes, Bytes>, payload: Bytes)

  /** What Decode makes of its input: a message, an error, or a body that does not parse. */
  datatype Verdict = Fine(msg: Msg, size: nat) | Refused(e: DecodeErr) | Malformed(size: nat)

  /** The metadata after decoding a section; an empty section leaves it alone. */
  function MetaAfter(before: map<Bytes, Bytes>, meta: Bytes): Option<map<Bytes, Bytes>> {
    if meta == [] then Some(before)
    else if ParsePairs(meta).Some? then Some(LastWins(ParsePairs(meta).value))
    else None
  }

  function Unzipped(cs: Compressors, msg: Msg, size: nat): Verdict
    requires IsHeader(msg.header)
  {
    var ct := CompressType(msg.header);
    if ct == 0 then Fine(msg, size)
    else if ct !in cs then Refused(Unsupported)
    else
      var p := cs[ct].unzip(msg.payload);
      if p.None? then Refused(UnzipFailed) else Fine(msg.(payload := p.value), size)
  }

  /** The parts of a body whose sections end at e, after the given metadata, if it parses. */
  function PartsAt(before: map<Bytes, Bytes>, h: Bytes, buf: Bytes, total: nat, e: Ends): Option<Msg>
    requires 4 <= e.a && e.a + 4 <= e.b && e.b + 4 <= e.c <= |buf| && total <= |buf|
  {
    if e.c + 4 > total then None
    else
      var x := Cut(buf, total, e.a, e.b, e.c);
      var m := MetaAfter(before, x.meta);
      if m.None? then None else Some(Msg(h, x.path, x.name, m.value, x.payload))
  }

  function Parts(before: map<Bytes, Bytes>, h: Bytes, buf: Bytes, total: nat): Option<Msg>
    requires total <= |buf|
  {
    var e := EndsOf(buf, total);
    if e.None? then None else PartsAt(before, h, buf, total, e.value)
  }

  function JudgeBody(cs: Compressors, before: map<Bytes, Bytes>, h: Bytes, body: Bytes): Verdict
    requires IsHeader(h)
  {
    var msg := Parts(before, h, body, |body|);
    if msg.None? then Malformed(16 + |body|) else Unzipped(cs, msg.value, 16 + |body|)
  }

  /** A body parses the same in a larger buffer. */
  lemma PartsWithin(before: map<Bytes, Bytes>, h: Bytes, buf: Bytes, total: nat)
    requires total <= |buf|
    ensures Parts(before, h, buf, total) == Parts(before, h, buf[..total], total)
  {
    EndsWithin(buf, total);
    var e := EndsOf(buf, total);
    if e.Some? && e.value.c + 4 <= total { CutWithin(buf, total, e.value.a, e.value.b, e.value.c); }
  }

  /** Sections that end within the capacity decide how parsing goes. */
  lemma PartsByEnds(before: map<Bytes, Bytes>, h: Bytes, buf: Bytes, total: nat, e: Ends)
    requires total <= |buf| && EndsOf(buf, |buf|) == Some(e)
    ensures Parts(before, h, buf, total) == PartsAt(before, h, buf, total, e)
  {
    EndsShrink(buf, total);
  }

  lemma NoParts(before: map<Bytes, Bytes>, h: Bytes, buf: Bytes, total: nat)
    requires total <= |buf| && EndsOf(buf, |buf|).None?
    ensures Parts(before, h, buf, total).None?
  {
    EndsShrink(buf, total);
  }

  /** Decode on values: before is the metadata the message already has, max the length limit. */
  function Judge(cs: Compressors, max: int, before: map<Bytes, Bytes>, input: Bytes): Verdict {
    if input == [] then Refused(Eof)
    else if input[0] != MAGIC then Refused(WrongMagic)
    else if |input| < 16 then Refused(Eof)
    else
      var total := Get32(input, 12);
      if max > 0 && total > max then Refused(TooLong)
      else if |input| < 16 + total then Refused(Eof)
      else JudgeBody(cs, before, input[..12], input[16..16 + total])
  }

  /** When parsing the first total bytes of a buffer slices out of range: a section is cut off even in
      the buffer's capacity, the metadata loop does, or what precedes the payload is not within total. */
  ghost predicate Overruns(buf: Bytes, total: nat)
    requires total <= |buf|
  {
    var e := EndsOf(buf, |buf|);
    e.None? || TailOverruns(buf, total, e.value.b + 4, e.value.c)
  }

  /** The same from the metadata on, which lies between n and c. */
  ghost predicate TailOverruns(buf: Bytes, total: nat, n: nat, c: nat)
    requires total <= |buf| && n <= c <= |buf| && c - n < TWO_32
  {
    MetaPanics(buf[n..], c - n) || (c + 4 > total && ParsePairs(buf[n..c]).Some?)
  }

  /** The message's buffer, to its capacity, after it has taken the body. */
  function Buffer(before: Bytes, body: Bytes): (buf: Bytes)
    ensures |body| <= |buf|
  {
    body + if |before| > |body| then before[|body|..] else []
  }

  /** err, a recovered panic and the message value after Decode are what the verdict says; overruns
      tells whether parsing the body slices out of range. */
  ghost predicate Follows(v: Verdict, overruns: bool, err: Option<DecodeErr>, recovered: bool, value: Msg) {
    match v
    case Fine(msg, _) => err.None? && !recovered && value == msg
    case Refused(e) => err == Some(e) && !recovered
    case Malformed(_) => recovered == overruns && err == if overruns then None else Some(MetaMissing)
  }

  /** The body in an input that is long enough. */
  function BodyOf(input: Bytes): Bytes {
    if |input| < 16 || |input| < 16 + Get32(input, 12) then [] else input[16..16 + Get32(input, 12)]
  }

  /** Decode of input into a message with the given buffer slices out of range. */
  ghost predicate DecodeOverruns(before: Bytes, input: Bytes) {
    Overruns(Buffer(before, BodyOf(input)), |BodyOf(input)|)
  }

  /** How much a refusing Decode has read: all there was, the magic byte, the length, or the frame. */
  function Taken(input: Bytes, e: DecodeErr): nat {
    match e
    case Eof => |input|
    case WrongMagic => 1
    case TooLong => 16
    case _ => if |input| < 16 then 0 else 16 + Get32(input, 12)
  }

  ghost predicate Consumed(v: Verdict, input: Bytes, size: nat) {
    size == if v.Refused? then Taken(input, v.e) else v.size
  }

  lemma JudgeIsJudgeBody(cs: Compressors, max: int, before: map<Bytes, Bytes>, input: Bytes)
    requires |input| >= 16 && input[0] == MAGIC
    requires var total := Get32(input, 12); |input| >= 16 + total && !(max > 0 && total > max)
    ensures var v := Judge(cs, max, before, input); var total := Get32(input, 12);
            && v == JudgeBody(cs, before, input[..12], input[16..16 + total])
            && Consumed(v, input, 16 + total)
            && (v.Malformed? ==> v.size == 16 + total)
  {
  }

  datatype BodyResult = Parsed | BodyMissing | BodyPanics

  /** Reads the length at n, moves on, and slices: not ok is a slice out of range. */
  method ReadSection(buf: Bytes, n: nat) returns (ok: bool, section: Bytes, end: nat)
    ensures ok <==> SectionEnd(buf, |buf|, n).Some?
    ensures ok ==> SectionEnd(buf, |buf|, n) == Some(end) && section == buf[n + 4..end] && |section| < TWO_32
  {
    if !InRange(buf, n, n + 4) { return false, [], 0; }
    var l := Get32(buf, n);
    if !InRange(buf, n + 4, n + 4 + l) { return false, [], 0; }
    return true, buf[n + 4..n + 4 + l], n + 4 + l;
  }

  /** Parsing total bytes of buf ends as it should: in the message value exactly if the body has its
      parts, in a panic exactly if it slices out of range. */
  ghost predicate BodyParsed(before: map<Bytes, Bytes>, buf: Bytes, total: nat, r: BodyResult, value: Msg)
    requires total <= |buf|
  {
    && (r.Parsed? <==> Parts(before, value.header, buf, total).Some?)
    && (r.Parsed? ==> Parts(before, value.header, buf, total) == Some(value))
    && (r.BodyPanics? <==> Overruns(buf, total))
  }

  lemma NamesMissing(before: map<Bytes, Bytes>, buf: Bytes, total: nat, value: Msg)
    requires total <= |buf| && EndsOf(buf, |buf|).None?
    ensures BodyParsed(before, buf, total, BodyPanics, value)
  {
    NoParts(before, value.header, buf, total);
  }

  /** What the parsing steps have found is what the body's parts are. */
  lemma PartsRead(before: map<Bytes, Bytes>, buf: Bytes, total: nat, e: Ends, r: BodyResult, msg: Msg)
    requires total <= |buf| && EndsOf(buf, |buf|) == Some(e)
    requires r.Parsed? <==> e.c + 4 <= total && MetaAfter(before, buf[e.b + 4..e.c]).Some?
    requires r.Parsed? ==>
               msg.path == buf[4..e.a] && msg.name == buf[e.a + 4..e.b] && msg.payload == buf[e.c + 4..total]
    requires r.Parsed? ==> Some(msg.meta) == MetaAfter(before, buf[e.b + 4..e.c])
    ensures r.Parsed? <==> Parts(before, msg.header, buf, total).Some?
    ensures r.Parsed? ==> Parts(before, msg.header, buf, total) == Some(msg)
  {
    PartsByEnds(before, msg.header, buf, total, e);
    PartsAtIs(before, msg.header, buf, total, e, MetaAfter(before, buf[e.b + 4..e.c]));
  }

  lemma PartsAtIs(before: map<Bytes, Bytes>, h: Bytes, buf: Bytes, total: nat, e: Ends, m: Option<map<Bytes, Bytes>>)
    requires 4 <= e.a && e.a + 4 <= e.b && e.b + 4 <= e.c <= |buf| && total <= |buf|
    requires m == MetaAfter(before, buf[e.b + 4..e.c])
    ensures PartsAt(before, h, buf, total, e) ==
              if e.c + 4 > total || m.None? then None
              else Some(Msg(h, buf[4..e.a], buf[e.a + 4..e.b], m.value, buf[e.c + 4..total]))
  {
    if e.c + 4 <= total { assert Cut(buf, total, e.a, e.b, e.c).meta == buf[e.b + 4..e.c]; }
  }

  lemma OverrunsByEnds(buf: Bytes, total: nat, e: Ends)
    requires total <= |buf| && EndsOf(buf, |buf|) == Some(e)
    ensures Overruns(buf, total) == TailOverruns(buf, total, e.b + 4, e.c)
  {
  }

  class Message {
    const header: array<byte>
    var servicePath: Bytes
    var serviceMethod: Bytes
    var metadata: map<Bytes, Bytes>
    var payload: Bytes
    var data: array<byte>

    /** NewMessage. */
    constructor ()
      ensures Valid() && fresh(header) && fresh(data) && data.Length == 0
      ensures header[..] == [MAGIC] + seq(11, _ => 0)
      ensures servicePath == [] && serviceMethod == [] && metadata == map[] && payload == []
    {
      header := new byte[12](i => if i == 0 then MAGIC else 0);
      servicePath, serviceMethod, metadata, payload := [], [], map[], [];
      data := new byte[0];
    }

    ghost predicate Valid()
      reads this
    {
      header.Length == 12 && header != data
    }

    ghost function Value(): Msg
      reads this, header
    {
      Msg(header[..], servicePath, serviceMethod, metadata, payload)
    }

    /** The payload to write; the header says no compression, if that does not work. */
    method Compress(cs: Compressors) returns (zipped: Bytes)
      requires Valid()
      modifies header
      ensures header[..] == HeaderOut(cs, old(header[..]), payload)
      ensures zipped == PayloadOut(cs, old(header[..]), payload)
    {
      zipped := payload;
      var z := Zipped(cs, CompressType(header[..]), payload);
      if z.Some? {
        zipped := z.value;
      } else {
        SetCompressType(header, 0);
      }
    }

    /** EncodeSlicePointer: the frame of the message, in a buffer from the pool. */
    method EncodeSlicePointer(cs: Compressors, pool: LimitedPool, which: nat) returns (b: Slice, ghost order: seq<Pair>)
      requires Valid() && pool.Valid() && Out(pool.free, header)
      modifies pool, header, set i, k | 0 <= i < |pool.free| && 0 <= k < |pool.free[i]| :: pool.free[i][k].data
      ensures pool.Valid() && Enumerates(order, metadata)
      ensures header[..] == HeaderOut(cs, old(header[..]), payload)
      ensures b.len <= b.data.Length
      ensures b.data[..b.len] == Encoded(cs, old(header[..]), servicePath, serviceMethod, EncodePairs(order), payload)
    {
      var meta;
      meta, order := EncodeMetadata(metadata);
      var zipped := Compress(cs);
      b := Deposit(pool, which, meta, zipped);
    }

    /** Gets a buffer and fills it. */
    method Deposit(pool: LimitedPool, which: nat, meta: Bytes, zipped: Bytes) returns (b: Slice)
      requires Valid() && pool.Valid() && Out(pool.free, header)
      modifies pool, set i, k | 0 <= i < |pool.free| && 0 <= k < |pool.free[i]| :: pool.free[i][k].data
      ensures pool.Valid() && b.len <= b.data.Length && header[..] == old(header[..])
      ensures b.data[..b.len] == Frame(header[..], servicePath, serviceMethod, meta, zipped)
    {
      b := pool.Get(12 + 4 + (16 + |servicePath| + |serviceMethod| + |meta| + |zipped|), which);
      assert b.data != header;
      FillFrame(b.data, header[..], servicePath, serviceMethod, meta, zipped);
    }

    /** The length and the names and metadata of WriteTo; done is what has been written then. */
    method WriteNames(w: Writer, meta: Bytes, zipped: Bytes, ghost start: Bytes) returns (ok: bool, ghost done: Bytes)
      requires Valid() && w.out == start + header[..]
      modifies w
      ensures var f := Frame(header[..], servicePath, serviceMethod, meta, zipped);
              && done + Prefixed(zipped) == f
              && (ok ==> w.out == start + done)
              && (!ok ==> start <= w.out < start + f && |start| + 12 <= |w.out| < |start| + |done|)
      ensures old(w.room).None? ==> ok && w.room.None?
    {
      ghost var h, f := header[..], Frame(header[..], servicePath, serviceMethod, meta, zipped);
      var total := Put32(Len32(16 + |servicePath| + |serviceMethod| + |meta| + |zipped|));
      FramePrefixes(h, servicePath, serviceMethod, meta, zipped);
      ghost var named := h + total + Prefixed(servicePath);
      done := named + Prefixed(serviceMethod) + Prefixed(meta);
      var n;
      n, ok := Send(w, total, start, h, f);
      if !ok { return; }
      ok := SendPrefixed(w, servicePath, start, h + total, f);
      if !ok { return; }
      ok := SendPrefixed(w, serviceMethod, start, named, f);
      if !ok { return; }
      ok := SendPrefixed(w, meta, start, named + Prefixed(serviceMethod), f);
    }

    /** The part of WriteTo after the header. */
    method WriteRest(w: Writer, meta: Bytes, zipped: Bytes, ghost start: Bytes) returns (n: nat, ok: bool)
      requires Valid() && w.out == start + header[..]
      modifies w
      ensures var f := Frame(header[..], servicePath, serviceMethod, meta, zipped);
              && (ok ==> w.out == start + f)
              && (!ok ==> start <= w.out < start + f)
              && |start| <= |w.out| && n == Counted(|w.out| - |start|, 32 + |servicePath| + |serviceMethod| + |meta|)
      ensures old(w.room).None? ==> ok
    {
      ghost var f, done := Frame(header[..], servicePath, serviceMethod, meta, zipped), [];
      n := 12;
      ok, done := WriteNames(w, meta, zipped, start);
      if !ok { return; }
      var len := Put32(Len32(|zipped|));
      assert done + len + zipped == f;
      n, ok := Send(w, len, start, done, f);
      if !ok { return 12, false; }
      n, ok := Send(w, zipped, start, done + len, f);
    }

    /** WriteTo: what Written says, as far as the writer takes it; an error exactly if that is not all
        or the compressor does not work. */
    method WriteTo(cs: Compressors, w: Writer) returns (n: nat, ok: bool, ghost order: seq<Pair>)
      requires Valid()
      modifies w
      ensures Enumerates(order, metadata)
      ensures var all := Written(cs, header[..], servicePath, serviceMethod, EncodePairs(order), payload);
              && old(w.out) <= w.out <= old(w.out) + all
              && (ok <==> w.out == old(w.out) + all && Zipped(cs, CompressType(header[..]), payload).Some?)
              && (old(w.room).None? ==> w.out == old(w.out) + all)
      ensures n == Counted(|w.out| - |old(w.out)|, 32 + |servicePath| + |serviceMethod| + |EncodePairs(order)|)
    {
      ghost var start := w.out;
      var meta;
      meta, order := EncodeMetadata(metadata);
      n, ok := w.Write(header[..]);
      if !ok {
        FrameBegins(header[..], n, servicePath, serviceMethod, meta, PayloadOut(cs, header[..], payload));
        return;
      }
      assert header[..][..12] == header[..];
      var z := Zipped(cs, CompressType(header[..]), payload);
      if z.None? { return n, false, order; }
      n, ok := WriteRest(w, meta, z.value, start);
    }

    /** The metadata section, which starts at n; an empty one leaves the metadata alone. */
    method DecodeMetaSection(buf: Bytes, n: nat, section: Bytes) returns (r: BodyResult)
      requires n + |section| <= |buf| && section == buf[n..n + |section|] && |section| < TWO_32
      modifies this`metadata
      ensures r.Parsed? <==> MetaAfter(old(metadata), section).Some?
      ensures r.Parsed? ==> Some(metadata) == MetaAfter(old(metadata), section)
      ensures r.BodyPanics? <==> MetaPanics(buf[n..], |section|)
      ensures r.Parsed? <==> ParsePairs(section).Some?
    {
      if section == [] { return Parsed; }
      var mr := DecodeMetadata(|section|, buf[n..]);
      assert buf[n..][..|section|] == section;
      if mr.Missing? { return BodyMissing; }
      if mr.Panics? { return BodyPanics; }
      metadata := mr.m;
      return Parsed;
    }

    /** The first three sections, of which the names are the first two. */
    method DecodeNames(buf: Bytes) returns (ok: bool, ends: Ends)
      modifies this`servicePath, this`serviceMethod
      ensures ok <==> EndsOf(buf, |buf|).Some?
      ensures ok ==> EndsOf(buf, |buf|) == Some(ends)
      ensures ok ==> servicePath == buf[4..ends.a] && serviceMethod == buf[ends.a + 4..ends.b]
    {
      var section, a, b, c;
      ends := Ends(0, 0, 0);
      ok, section, a := ReadSection(buf, 0);
      if !ok { return; }
      servicePath := section;
      ok, section, b := ReadSection(buf, a);
      if !ok { return; }
      serviceMethod := section;
      ok, section, c := ReadSection(buf, b);
      if !ok { return; }
      ends := Ends(a, b, c);
    }

    /** Metadata and payload, after the names. */
    method DecodeTail(buf: Bytes, total: nat, ends: Ends) returns (r: BodyResult)
      requires total <= |buf| && ends.b + 4 <= ends.c <= |buf| && ends.c - ends.b - 4 < TWO_32
      modifies this`metadata, this`payload
      ensures r.Parsed? <==> ends.c + 4 <= total && MetaAfter(old(metadata), buf[ends.b + 4..ends.c]).Some?
      ensures r.Parsed? ==> payload == buf[ends.c + 4..total]
      ensures r.Parsed? ==> Some(metadata) == MetaAfter(old(metadata), buf[ends.b + 4..ends.c])
      ensures r.BodyPanics? <==> TailOverruns(buf, total, ends.b + 4, ends.c)
    {
      r := DecodeMetaSection(buf, ends.b + 4, buf[ends.b + 4..ends.c]);
      if !r.Parsed? { return; }
      if ends.c + 4 > total { return BodyPanics; }
      payload := buf[ends.c + 4..total];
    }

    /** The parsing part of Decode on a buffer of capacity |buf| of which total bytes were read. */
    method DecodeBody(buf: Bytes, total: nat) returns (r: BodyResult)
      requires total <= |buf|
      modifies this`servicePath, this`serviceMethod, this`metadata, this`payload
      ensures BodyParsed(old(metadata), buf, total, r, Value())
    {
      ghost var before := metadata;
      var ok, ends := DecodeNames(buf);
      if !ok {
        NamesMissing(before, buf, total, Value());
        return BodyPanics;
      }
      r := DecodeTail(buf, total, ends);
      PartsRead(before, buf, total, ends, r, Value());
      OverrunsByEnds(buf, total, ends);
    }

    /** The read of total body bytes into the message's buffer, which is kept if it is large enough. */
    method Fill(body: Bytes)
      requires Valid()
      modifies this`data, data
      ensures Valid() && (data == old(data) || fresh(data))
      ensures data[..] == Buffer(old(data[..]), body)
      ensures header[..] == old(header[..])
    {
      if data.Length < |body| { data := new byte[|body|]; }
      CopyAt(data, 0, body);
      assert data[..] == data[..|body|] + data[|body|..];
    }

    method ReadBody(body: Bytes) returns (r: BodyResult)
      requires Valid()
      modifies this, data
      ensures Valid() && (data == old(data) || fresh(data)) && header[..] == old(header[..])
      ensures r.Parsed? <==> Parts(old(metadata), header[..], body, |body|).Some?
      ensures r.Parsed? ==> Parts(old(metadata), header[..], body, |body|) == Some(Value())
      ensures r.BodyPanics? <==> Overruns(Buffer(old(data[..]), body), |body|)
    {
      Fill(body);
      PartsWithin(metadata, header[..], data[..], |body|);
      assert data[..][..|body|] == body;
      r := DecodeBody(data[..], |body|);
    }

    method Uncompress(cs: Compressors, ghost size: nat) returns (err: Option<DecodeErr>)
      requires Valid()
      modifies this`payload
      ensures Follows(Unzipped(cs, old(Value()), 16 + size), false, err, false, Value())
    {
      var ct := CompressType(header[..]);
      if ct == 0 { return None; }
      if ct !in cs { return Some(Unsupported); }
      var p := cs[ct].unzip(payload);
      if p.None? { return Some(UnzipFailed); }
      payload := p.value;
      return None;
    }

    /** The part of Decode after the body has been read. */
    method Finish(cs: Compressors, body: Bytes) returns (err: Option<DecodeErr>, recovered: bool)
      requires Valid()
      modifies this, data
      ensures Valid() && (data == old(data) || fresh(data)) && header[..] == old(header[..])
      ensures Follows(JudgeBody(cs, old(metadata), header[..], body), Overruns(Buffer(old(data[..]), body), |body|),
                      err, recovered, Value())
    {
      var r := ReadBody(body);
      if r.BodyPanics? { return None, true; }
      if r.BodyMissing? { return Some(MetaMissing), false; }
      err := Uncompress(cs, |body|);
      recovered := false;
    }

    /** The part of Decode after the header. */
    method DecodeRest(cs: Compressors, max: int, input: Bytes)
      returns (err: Option<DecodeErr>, recovered: bool, size: nat)
      requires Valid() && |input| >= 12 && input[0] == MAGIC && header[..] == input[..12]
      modifies this, data
      ensures Valid() && (data == old(data) || fresh(data)) && header[..] == old(header[..])
      ensures Follows(Judge(cs, max, old(metadata), input), DecodeOverruns(old(data[..]), input),
                      err, recovered, Value())
      ensures Consumed(Judge(cs, max, old(metadata), input), input, size)
    {
      if |input| < 16 { return Some(Eof), false, |input|; }
      var total := Get32(input, 12);
      if max > 0 && total > max { return Some(TooLong), false, 16; }
      if |input| < 16 + total { return Some(Eof), false, |input|; }
      JudgeIsJudgeBody(cs, max, metadata, input);
      err, recovered := Finish(cs, input[16..16 + total]);
      size := 16 + total;
    }

    /** Decode from a reader that holds input, of which it takes size bytes: what Judge says, whatever
        an earlier use left in the buffer.  A body that does not parse ends in a panic that is recovered
        into a nil error exactly if parsing it slices out of range, and in ErrMetaKVMissing otherwise. */
    method Decode(cs: Compressors, max: int, input: Bytes)
      returns (err: Option<DecodeErr>, recovered: bool, size: nat)
      requires Valid()
      modifies this, header, data
      ensures Valid() && (data == old(data) || fresh(data))
      ensures Follows(Judge(cs, max, old(metadata), input), DecodeOverruns(old(data[..]), input),
                      err, recovered, Value())
      ensures Consumed(Judge(cs, max, old(metadata), input), input, size)
    {
      if input == [] { return Some(Eof), false, 0; }
      header[0] := input[0];
      if header[0] != MAGIC { return Some(WrongMagic), false, 1; }
      if |input| < 12 {
        CopyAt(header, 1, input[1..]);
        return Some(Eof), false, |input|;
      }
      CopyAt(header, 1, input[1..12]);
      assert header[..] == input[..12];
      err, recovered, size := DecodeRest(cs, max, input);
    }

    /** Reset: all but the magic byte and the buffer is as in a new message. */
    method Reset()
      requires Valid()
      modifies this`servicePath, this`serviceMethod, this`metadata, this`payload, header
      ensures Value() == Msg([old(header[0])] + seq(11, _ => 0), [], [], map[], [])
    {
      CopyAt(header, 1, seq(11, _ => 0));
      assert header[..] == header[..12];
      metadata, payload, servicePath, serviceMethod := map[], [], [], [];
    }

    /** Clone: the header without compression and the names, nothing else. */
    method Clone() returns (c: Message)
      requires Valid()
      ensures fresh(c) && fresh(c.header) && c.Valid()
      ensures c.Value() == Msg(SetCompressTypeOf(header[..], 0), servicePath, serviceMethod, map[], [])
      ensures Value() == old(Value())
    {
      c := new Message();
      CopyAt(c.header, 0, header[..]);
      assert c.header[..] == header[..];
      SetCompressType(c.header, 0);
      c.servicePath, c.serviceMethod := servicePath, serviceMethod;
    }
  }
}
