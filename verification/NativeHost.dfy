/** Native-messaging framing (native_bridge/host.py): a frame is a four-byte little-endian
    length followed by that many bytes of JSON.

    The JSON text of a message is modelled by a pair of functions `dumps` and `loads`;
    all that framing needs of them is that `loads` undoes `dumps`. */
module NativeHost {
  import opened Basics

  /** The length field of a frame has this many bytes. */
  const HEADER: nat := 4

  /** struct.pack refuses a length that does not fit in an unsigned 32-bit field. */
  const FRAME_LIMIT: nat := 0x1_0000_0000

  datatype Parse<M> = Parsed(msg: M) | Malformed

  /** The `width` low bytes of a number, least significant first. */
  function LittleEndian(n: nat, width: nat): (r: Bytes)
    ensures |r| == width
    decreases width, n
  {
    if width == 0 then [] else [(n % 256) as Byte] + LittleEndian(n / 256, width - 1)
  }

  function Value(b: Bytes): nat {
    if b == [] then 0 else b[0] as nat + 256 * Value(b[1..])
  }

  function Pow256(k: nat): nat {
    if k == 0 then 1 else 256 * Pow256(k - 1)
  }

  lemma {:induction false} ValueOfLittleEndian(n: nat, width: nat)
    requires n < Pow256(width)
    ensures Value(LittleEndian(n, width)) == n
  {
    if width > 0 {
      ValueOfLittleEndian(n / 256, width - 1);
      assert LittleEndian(n, width)[1..] == LittleEndian(n / 256, width - 1);
    }
  }

  lemma {:induction false} LittleEndianOfValue(b: Bytes)
    ensures Value(b) < Pow256(|b|) && LittleEndian(Value(b), |b|) == b
  {
    if b != [] {
      var v := Value(b[1..]);
      LittleEndianOfValue(b[1..]);
      Digit(b[0] as nat, v);
      assert b == [b[0]] + b[1..];
    }
  }

  lemma Digit(low: nat, high: nat)
    requires low < 256
    ensures (low + 256 * high) % 256 == low && (low + 256 * high) / 256 == high
  {
  }

  /** The header holds the length's four bytes, the lowest first. */
  lemma HeaderIs(n: nat)
    ensures LittleEndian(n, HEADER)
            == [(n % 256) as Byte, (n / 0x100 % 256) as Byte, (n / 0x1_0000 % 256) as Byte, (n / 0x100_0000 % 256) as Byte]
  {
    var a, b, c := n / 0x100, n / 0x1_0000, n / 0x100_0000;
    assert a / 256 == b && b / 256 == c;
    assert LittleEndian(n, 4) == [(n % 256) as Byte] + LittleEndian(a, 3);
    assert LittleEndian(a, 3) == [(a % 256) as Byte] + LittleEndian(b, 2);
    assert LittleEndian(b, 2) == [(b % 256) as Byte] + LittleEndian(c, 1);
    assert LittleEndian(c, 1) == [(c % 256) as Byte];
  }

  lemma HeaderLimit()
    ensures Pow256(HEADER) == FRAME_LIMIT
  {
    assert Pow256(2) == 65536;
    assert Pow256(4) == 256 * (256 * Pow256(2));
  }

  /** The length announced by the first four bytes of a buffer. */
  function Announced(buf: Bytes): nat
    requires |buf| >= HEADER
  {
    Value(buf[..HEADER])
  }

  function Frame(body: Bytes): (r: Bytes)
    ensures |r| == HEADER + |body|
  {
    LittleEndian(|body|, HEADER) + body
  }

  predicate Framable(bodies: seq<Bytes>) {
    forall i :: 0 <= i < |bodies| ==> |bodies[i]| < FRAME_LIMIT
  }

  /** The concatenation of the frames of a list of message bodies. */
  function Stream(bodies: seq<Bytes>): Bytes {
    if bodies == [] then [] else Frame(bodies[0]) + Stream(bodies[1..])
  }

  /** What is left over holds no complete frame. */
  predicate Incomplete(rest: Bytes) {
    |rest| < HEADER || |rest| - HEADER < Announced(rest)
  }

  /** The frames of `bodies` followed by `rest` spell out `buf`, and no frame is left in `rest`. */
  ghost predicate Splits(buf: Bytes, bodies: seq<Bytes>, rest: Bytes) {
    Framable(bodies) && buf == Stream(bodies) + rest && Incomplete(rest)
  }

  /** `msgs` are what `loads` makes of the message bodies, one for one. */
  ghost predicate Parses<M>(bodies: seq<Bytes>, msgs: seq<M>, loads: Bytes -> Parse<M>) {
    |bodies| == |msgs| && forall i :: 0 <= i < |bodies| ==> loads(bodies[i]) == Parsed(msgs[i])
  }

  /** `loads` reads back what `dumps` wrote, and what it wrote fits in a frame. */
  ghost predicate Codec<M(!new)>(loads: Bytes -> Parse<M>, dumps: M -> Bytes) {
    forall m :: CodecAt(m, loads, dumps)
  }

  ghost predicate CodecAt<M>(m: M, loads: Bytes -> Parse<M>, dumps: M -> Bytes) {
    loads(dumps(m)) == Parsed(m) && |dumps(m)| < FRAME_LIMIT
  }

  function Map<A, B>(f: A -> B, xs: seq<A>): (r: seq<B>)
    ensures |r| == |xs| && forall i :: 0 <= i < |xs| ==> r[i] == f(xs[i])
  {
    if xs == [] then [] else [f(xs[0])] + Map(f, xs[1..])
  }

  /** The bytes an encoder writes for a list of messages. */
  function Encoded<M>(msgs: seq<M>, dumps: M -> Bytes): Bytes {
    Stream(Map(dumps, msgs))
  }

  /** encode_message. None is the error struct.pack raises for an oversized body. */
  method EncodeMessage<M>(payload: M, dumps: M -> Bytes) returns (r: Option<Bytes>)
    ensures r.Some? <==> |dumps(payload)| <= 0xFFFF_FFFF
    ensures r.Some? ==> r.value == Stream([dumps(payload)])
    ensures r.Some? ==>
              var n := |dumps(payload)|;
              r.value == [(n % 256) as Byte, (n / 0x100 % 256) as Byte, (n / 0x1_0000 % 256) as Byte, (n / 0x100_0000 % 256) as Byte]
                         + dumps(payload)
    ensures r.Some? ==> forall later: Bytes :: !Incomplete(r.value + later)
  {
    var body := dumps(payload);
    if |body| >= FRAME_LIMIT {
      return None;
    }
    HeaderIs(|body|);
    r := Some(LittleEndian(|body|, HEADER) + body);
    forall later: Bytes ensures !Incomplete(r.value + later) {
      HeadIsFramed(body, later);
    }
  }

  datatype Decoded<M> = Decoded(msgs: seq<M>, rest: Bytes) | BadJson

  /** What decode_messages makes of a buffer: it is exactly the frames of the messages
      returned, in order, followed by a leftover without a complete frame; or some frame of it
      is not JSON. */
  ghost predicate Decodes<M>(buf: Bytes, loads: Bytes -> Parse<M>, d: Decoded<M>, bodies: seq<Bytes>) {
    match d
    case Decoded(msgs, rest) => Splits(buf, bodies, rest) && Parses(bodies, msgs, loads)
    case BadJson => Framable(bodies) && Stream(bodies) <= buf && exists i :: 0 <= i < |bodies| && loads(bodies[i]).Malformed?
  }

  /** decode_messages. */
  method DecodeMessages<M>(buf: Bytes, loads: Bytes -> Parse<M>) returns (d: Decoded<M>)
    ensures exists bodies :: Decodes(buf, loads, d, bodies)
  {
    ghost var bodies: seq<Bytes> := [];
    var msgs: seq<M> := [];
    var off: nat := 0;
    while |buf| - off >= HEADER
      invariant off <= |buf|
      invariant Framable(bodies) && Stream(bodies) == buf[..off]
      invariant Parses(bodies, msgs, loads)
    {
      var size := Announced(buf[off..]);
      if |buf| - off - HEADER < size {
        break;
      }
      var body := buf[off + HEADER..off + HEADER + size];
      CutFrame(buf, off, bodies);
      bodies := bodies + [body];
      match loads(body)
      case Malformed =>
        assert loads(bodies[|bodies| - 1]).Malformed?;
        assert Decodes(buf, loads, BadJson, bodies);
        return BadJson;
      case Parsed(msg) =>
        msgs := msgs + [msg];
        off := off + HEADER + size;
    }
    assert buf == buf[..off] + buf[off..];
    d := Decoded(msgs, buf[off..]);
    assert Decodes(buf, loads, d, bodies);
  }

  /** What serve_forever has done by the time it stops reading: the messages it handed to
      the handler in order, the bytes it wrote, and the bytes it never acted on. */
  datatype Session<M> = Served(handled: seq<M>, output: Bytes, leftover: Bytes) | Crashed

  function Concat(chunks: seq<Bytes>): Bytes {
    if chunks == [] then [] else Concat(chunks[..|chunks| - 1]) + chunks[|chunks| - 1]
  }

  /** How a session went, with the frames it cut out of the chunks. A session that served
      consumed everything but the leftover and wrote one reply frame for each message; one
      that crashed met a fatal frame in what it had read so far. */
  ghost predicate Went<M>(chunks: seq<Bytes>, handler: M -> M, loads: Bytes -> Parse<M>, dumps: M -> Bytes,
                          s: Session<M>, bodies: seq<Bytes>) {
    match s
    case Served(handled, output, leftover) =>
      && Splits(Concat(chunks), bodies, leftover) && Parses(bodies, handled, loads)
      && output == Encoded(Map(handler, handled), dumps)
    case Crashed =>
      && Framable(bodies) && (exists i :: 0 <= i < |bodies| && Fatal(bodies[i], handler, loads, dumps))
      && exists n :: 0 <= n <= |chunks| && Stream(bodies) <= Concat(chunks[..n])
  }

  /** serve_forever over the chunks its reads return before end of file. The reply of a
      handler that raises is part of `handler`. */
  method ServeForever<M>(chunks: seq<Bytes>, handler: M -> M, loads: Bytes -> Parse<M>, dumps: M -> Bytes)
    returns (s: Session<M>)
    ensures exists bodies :: Went(chunks, handler, loads, dumps, s, bodies)
  {
    var buf: Bytes := [];
    var handled: seq<M>, output: Bytes := [], [];
    ghost var bodies: seq<Bytes> := [];
    for i := 0 to |chunks|
      invariant Splits(Concat(chunks[..i]), bodies, buf) && Parses(bodies, handled, loads)
      invariant output == Encoded(Map(handler, handled), dumps)
    {
      ghost var before, held := bodies, buf;
      var d := DecodeMessages(buf + chunks[i], loads);
      ghost var cut :| Decodes(held + chunks[i], loads, d, cut);
      bodies := before + cut;
      ReadMore(chunks, i, before, held, cut);
      if d.BadJson? {
        ghost var bad :| 0 <= bad < |cut| && loads(cut[bad]).Malformed?;
        assert Fatal(bodies[|before| + bad], handler, loads, dumps);
        assert Stream(bodies) <= Concat(chunks[..i + 1]);
        assert Went(chunks, handler, loads, dumps, Crashed, bodies);
        return Crashed;
      }
      var written, bad := AnswerAll(d.msgs, handler, dumps);
      if written.None? {
        assert Fatal(bodies[|before| + bad], handler, loads, dumps);
        assert Stream(bodies) <= Concat(chunks[..i + 1]);
        assert Went(chunks, handler, loads, dumps, Crashed, bodies);
        return Crashed;
      }
      RepliesAppend(handled, d.msgs, handler, dumps);
      ParsesAppend(before, handled, cut, d.msgs, loads);
      handled, output, buf := handled + d.msgs, output + written.value, d.rest;
    }
    assert chunks[..|chunks|] == chunks;
    s := Served(handled, output, buf);
    assert Went(chunks, handler, loads, dumps, s, bodies);
  }

  /** One more read: whatever frames can be cut from the buffer extend those cut before. */
  lemma ReadMore(chunks: seq<Bytes>, i: nat, before: seq<Bytes>, held: Bytes, cut: seq<Bytes>)
    requires i < |chunks| && Splits(Concat(chunks[..i]), before, held) && Framable(cut)
    ensures Framable(before + cut) && chunks[..i + 1] == chunks[..i] + [chunks[i]]
    ensures Stream(cut) <= held + chunks[i] ==> Stream(before + cut) <= Concat(chunks[..i + 1])
    ensures forall rest :: Splits(held + chunks[i], cut, rest) ==> Splits(Concat(chunks[..i + 1]), before + cut, rest)
  {
    assert chunks[..i + 1][..i] == chunks[..i];
    StreamAppend(before, cut);
    ConcatAssoc(Stream(before), held, chunks[i]);
    assert Concat(chunks[..i + 1]) == Stream(before) + (held + chunks[i]);
    forall rest | Splits(held + chunks[i], cut, rest)
      ensures Splits(Concat(chunks[..i + 1]), before + cut, rest)
    {
      ConcatAssoc(Stream(before), Stream(cut), rest);
    }
    if Stream(cut) <= held + chunks[i] {
      PrefixUnder(Stream(before), Stream(cut), held + chunks[i]);
    }
  }

  /** The inner loop: one reply frame for each message of a batch. */
  method AnswerAll<M>(msgs: seq<M>, handler: M -> M, dumps: M -> Bytes) returns (out: Option<Bytes>, ghost bad: nat)
    ensures out.Some? ==> out.value == Encoded(Map(handler, msgs), dumps)
    ensures out.None? ==> bad < |msgs| && |dumps(handler(msgs[bad]))| >= FRAME_LIMIT
  {
    var written: Bytes := [];
    for k := 0 to |msgs|
      invariant written == Encoded(Map(handler, msgs[..k]), dumps)
    {
      var frame := EncodeMessage(handler(msgs[k]), dumps);
      if frame.None? {
        return None, k;
      }
      RepliesAppend(msgs[..k], [msgs[k]], handler, dumps);
      assert Map(dumps, Map(handler, [msgs[k]])) == [dumps(handler(msgs[k]))];
      assert msgs[..k + 1] == msgs[..k] + [msgs[k]];
      written := written + frame.value;
    }
    assert msgs[..|msgs|] == msgs;
    return Some(written), 0;
  }

  /** A frame that ends the host: its text is not JSON, or its reply is too long to frame. */
  predicate Fatal<M>(body: Bytes, handler: M -> M, loads: Bytes -> Parse<M>, dumps: M -> Bytes) {
    match loads(body)
    case Malformed => true
    case Parsed(msg) => |dumps(handler(msg))| >= FRAME_LIMIT
  }

  lemma RepliesAppend<M>(handled: seq<M>, more: seq<M>, handler: M -> M, dumps: M -> Bytes)
    ensures Encoded(Map(handler, handled + more), dumps) ==
      Encoded(Map(handler, handled), dumps) + Encoded(Map(handler, more), dumps)
  {
    MapAppend(handler, handled, more);
    MapAppend(dumps, Map(handler, handled), Map(handler, more));
    StreamAppend(Map(dumps, Map(handler, handled)), Map(dumps, Map(handler, more)));
  }

  lemma ParsesAppend<M>(a: seq<Bytes>, ma: seq<M>, b: seq<Bytes>, mb: seq<M>, loads: Bytes -> Parse<M>)
    requires Parses(a, ma, loads) && Parses(b, mb, loads)
    ensures Parses(a + b, ma + mb, loads)
  {
  }

  lemma MapAppend<A, B>(f: A -> B, a: seq<A>, b: seq<A>)
    ensures Map(f, a + b) == Map(f, a) + Map(f, b)
  {
  }

  /** However the frames of a list of messages are cut into reads, possibly ending inside a
      further frame, the host handles each message exactly once and in order, answers each in
      turn, keeps exactly the unfinished bytes, and never crashes. */
  lemma ServesEachMessageOnce<M(!new)>(msgs: seq<M>, partial: Bytes, chunks: seq<Bytes>, handler: M -> M,
                                       loads: Bytes -> Parse<M>, dumps: M -> Bytes, s: Session<M>)
    requires Codec(loads, dumps)
    requires Incomplete(partial) && Concat(chunks) == Encoded(msgs, dumps) + partial
    requires exists bodies :: Went(chunks, handler, loads, dumps, s, bodies)
    ensures s == Served(msgs, Encoded(Map(handler, msgs), dumps), partial)
  {
    var bodies :| Went(chunks, handler, loads, dumps, s, bodies);
    assert forall k :: 0 <= k < |msgs| ==> CodecAt(msgs[k], loads, dumps);
    match s
    case Served(handled, _, leftover) =>
      SplitIsUnique(Concat(chunks), bodies, leftover, Map(dumps, msgs), partial);
      assert handled == msgs;
    case Crashed =>
      var i :| 0 <= i < |bodies| && Fatal(bodies[i], handler, loads, dumps);
      var n :| 0 <= n <= |chunks| && Stream(bodies) <= Concat(chunks[..n]);
      EncodedStreamIsNeverFatal(msgs, partial, chunks, n, handler, loads, dumps, bodies, i);
  }

  /** Nothing cut out of an encoder's output is fatal, wherever the reads stop. */
  lemma EncodedStreamIsNeverFatal<M(!new)>(msgs: seq<M>, partial: Bytes, chunks: seq<Bytes>, n: nat, handler: M -> M,
                                     loads: Bytes -> Parse<M>, dumps: M -> Bytes, bodies: seq<Bytes>, i: nat)
    requires Codec(loads, dumps)
    requires Incomplete(partial) && Concat(chunks) == Encoded(msgs, dumps) + partial
    requires n <= |chunks| && Framable(bodies) && Stream(bodies) <= Concat(chunks[..n]) && i < |bodies|
    ensures !Fatal(bodies[i], handler, loads, dumps)
  {
    var whole := Map(dumps, msgs);
    assert forall k :: 0 <= k < |msgs| ==> CodecAt(msgs[k], loads, dumps);
    ConcatPrefix(chunks, n);
    PrefixBodies(bodies, whole, partial);
    assert bodies[i] == whole[i] && CodecAt(handler(msgs[i]), loads, dumps);
  }

  lemma {:induction false} ConcatPrefix(chunks: seq<Bytes>, n: nat)
    requires n <= |chunks|
    ensures Concat(chunks[..n]) <= Concat(chunks)
    decreases |chunks|
  {
    if n < |chunks| {
      ConcatPrefix(chunks[..|chunks| - 1], n);
      assert chunks[..|chunks| - 1][..n] == chunks[..n];
    } else {
      assert chunks[..n] == chunks;
    }
  }

  /** Frames are self-delimiting: if the frames of `a` begin what the frames of `b` and an
      incomplete tail spell, then `a` begins `b`. */
  lemma {:induction false} PrefixBodies(a: seq<Bytes>, b: seq<Bytes>, tail: Bytes)
    requires Framable(a) && Framable(b) && Incomplete(tail) && Stream(a) <= Stream(b) + tail
    ensures a <= b
  {
    if a != [] {
      var whole := Stream(b) + tail;
      var rest := whole[|Stream(a)|..];
      ConcatAssoc(Frame(a[0]), Stream(a[1..]), rest);
      assert whole == Stream(a) + rest;
      assert b == [] ==> whole == tail;
      PeelFrame(whole, a[0], Stream(a[1..]) + rest);
      assert b != [];
      ConcatAssoc(Frame(b[0]), Stream(b[1..]), tail);
      PeelFrame(whole, b[0], Stream(b[1..]) + tail);
      PrefixBodies(a[1..], b[1..], tail);
      assert a == [a[0]] + a[1..] && b == [b[0]] + b[1..];
    }
  }

  /** A buffer that begins with a frame determines that frame and what follows it. */
  lemma PeelFrame(buf: Bytes, body: Bytes, tail: Bytes)
    requires |body| < FRAME_LIMIT && buf == Frame(body) + tail
    ensures !Incomplete(buf)
    ensures var n := HEADER + Announced(buf); n <= |buf| && body == buf[HEADER..n] && tail == buf[n..]
  {
    HeadIsFramed(body, tail);
  }

  /** A byte string is cut into frames and an incomplete rest in one way only. */
  lemma SplitIsUnique(buf: Bytes, a: seq<Bytes>, ra: Bytes, b: seq<Bytes>, rb: Bytes)
    requires Splits(buf, a, ra) && Splits(buf, b, rb)
    ensures a == b && ra == rb
  {
    PrefixBodies(a, b, rb);
    PrefixBodies(b, a, ra);
    assert ra == buf[|Stream(a)|..] && rb == buf[|Stream(b)|..];
  }

  /** A leftover buffer is a strict prefix of one frame, and nothing else is a leftover. */
  lemma LeftoverIsStrictPrefix(rest: Bytes)
    ensures Incomplete(rest) <==> exists body: Bytes :: |body| < FRAME_LIMIT && rest < Frame(body)
  {
    if Incomplete(rest) {
      var body := LeftoverExtends(rest);
    }
    forall body: Bytes | |body| < FRAME_LIMIT && rest < Frame(body)
      ensures Incomplete(rest)
    {
      if |rest| >= HEADER {
        HeadIsFramed(body, []);
        assert rest[..HEADER] == (Frame(body) + [])[..HEADER];
      }
    }
  }

  lemma LeftoverExtends(rest: Bytes) returns (body: Bytes)
    requires Incomplete(rest)
    ensures |body| < FRAME_LIMIT && rest < Frame(body)
  {
    if |rest| < HEADER {
      var pad := Zeros(HEADER - |rest|);
      body := Zeros(Value(rest + pad));
      FrameOfHeader(rest + pad, body);
      ConcatAssoc(rest, pad, body);
      StrictPrefix(rest, pad + body, Frame(body));
    } else {
      var pad := Zeros(Announced(rest) - (|rest| - HEADER));
      body := rest[HEADER..] + pad;
      FrameOfHeader(rest[..HEADER], body);
      ConcatAssoc(rest[..HEADER], rest[HEADER..], pad);
      assert rest[..HEADER] + rest[HEADER..] == rest;
      StrictPrefix(rest, pad, Frame(body));
    }
  }

  function Zeros(n: nat): (r: Bytes)
    ensures |r| == n
  {
    if n == 0 then [] else [0] + Zeros(n - 1)
  }

  lemma StrictPrefix(rest: Bytes, more: Bytes, whole: Bytes)
    requires more != [] && whole == rest + more
    ensures rest < whole
  {
  }

  lemma FrameOfHeader(head: Bytes, body: Bytes)
    requires |head| == HEADER && |body| == Value(head)
    ensures |body| < FRAME_LIMIT && Frame(body) == head + body
  {
    HeaderLimit();
    LittleEndianOfValue(head);
  }

  lemma HeadIsFramed(body: Bytes, tail: Bytes)
    requires |body| < FRAME_LIMIT
    ensures var buf := Frame(body) + tail; |buf| >= HEADER && Announced(buf) == |body| && !Incomplete(buf)
  {
    assert (Frame(body) + tail)[..HEADER] == LittleEndian(|body|, HEADER);
    HeaderLimit();
    ValueOfLittleEndian(|body|, HEADER);
  }

  lemma FrameAt(buf: Bytes, off: nat)
    requires off + HEADER <= |buf| && off + HEADER + Announced(buf[off..]) <= |buf|
    ensures var size := Announced(buf[off..]);
      size < FRAME_LIMIT && Frame(buf[off + HEADER..off + HEADER + size]) == buf[off..off + HEADER + size]
  {
    HeaderLimit();
    LittleEndianOfValue(buf[off..][..HEADER]);
  }

  /** One turn of the decoding loop: the next frame extends the frames already cut. */
  lemma CutFrame(buf: Bytes, off: nat, bodies: seq<Bytes>)
    requires off + HEADER <= |buf| && off + HEADER + Announced(buf[off..]) <= |buf|
    requires Framable(bodies) && Stream(bodies) == buf[..off]
    ensures var end := off + HEADER + Announced(buf[off..]);
      var more := bodies + [buf[off + HEADER..end]];
      Framable(more) && Stream(more) == buf[..end]
  {
    var end := off + HEADER + Announced(buf[off..]);
    var body := buf[off + HEADER..end];
    FrameAt(buf, off);
    StreamAppend(bodies, [body]);
    assert Stream([body]) == Frame(body) + [];
    assert buf[..end] == buf[..off] + buf[off..end];
  }

  lemma {:induction false} StreamAppend(a: seq<Bytes>, b: seq<Bytes>)
    ensures Stream(a + b) == Stream(a) + Stream(b)
  {
    if a == [] {
      assert a + b == b;
    } else {
      StreamAppend(a[1..], b);
      assert (a + b)[1..] == a[1..] + b;
      assert Stream(a + b) == Frame(a[0]) + Stream(a[1..] + b);
      ConcatAssoc(Frame(a[0]), Stream(a[1..]), Stream(b));
    }
  }

  lemma PrefixUnder(pre: Bytes, a: Bytes, b: Bytes)
    requires a <= b
    ensures pre + a <= pre + b
  {
  }
}
