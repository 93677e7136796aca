/** The parser against the frame formats of RFC 1928, and what a client can observe of a session. */
module WireLaws {
  import opened Text
  import opened Addresses
  import opened Wire

  // ---------------------------------------------------------------- the formats, written independently

  /** RFC 1928, section 3: VER, NMETHODS, METHODS. */
  predicate IsGreeting(g: bytes) {
    |g| >= 3 && g[0] == 5 && |g| == 2 + g[1] as int
  }

  predicate OffersNoAuth(g: bytes) {
    IsGreeting(g) && 0 in g[2..]
  }

  /** A CONNECT request of the supported kinds: RFC 1928, sections 4 and 5. */
  datatype Frame = ToQuad(quad: Quad, port: port) | ToName(name: bytes, port: port)

  predicate Supported(f: Frame) {
    f.port > 0 && (f.ToName? ==> 1 <= |f.name| <= 255)
  }

  function PortBytes(p: port): bytes {
    [p / 256, p % 256]
  }

  function EncodeHost(f: Frame): bytes
    requires Supported(f)
  {
    match f
    case ToQuad(q, _) => [q.a, q.b, q.c, q.d]
    case ToName(name, _) => [|name|] + name
  }

  function AddressType(f: Frame): byte {
    if f.ToQuad? then ATYP_IPV4 else ATYP_FQDN
  }

  function Encode(f: Frame): bytes
    requires Supported(f)
  {
    [5, 1, 0, AddressType(f)] + EncodeHost(f) + PortBytes(f.port)
  }

  function Meaning(f: Frame): Request {
    match f
    case ToQuad(q, p) => Request(ATYP_IPV4, DottedQuad(q), p)
    case ToName(name, p) => Request(ATYP_FQDN, BytesText(name), p)
  }

  // ---------------------------------------------------------------- method selection

  lemma TakePrefix(s: Side, head: bytes, rest: bytes)
    requires s.input == head + rest
    ensures TakeSpec(s, |head|) == (s.(input := rest), Some(head))
  {
    assert s.input[..|head|] == head && s.input[|head|..] == rest;
  }

  predicate StartsWithGreeting(s: Side, g: bytes, rest: bytes) {
    s.input == g + rest && OffersNoAuth(g)
  }

  /** A handshake succeeds exactly on a greeting that offers "no authentication" and whose answer gets through. */
  lemma HandshakeIff(s: Side)
    ensures HandshakeSpec(s).1.Ok? <==> s.room >= 2 && exists g, rest :: StartsWithGreeting(s, g, rest)
  {
    if g, rest :| StartsWithGreeting(s, g, rest) {
      GreetingAccepted(s, g, rest);
    }
    if HandshakeSpec(s).1.Ok? {
      var g, rest := AcceptedGreeting(s);
    }
  }

  lemma AcceptedGreeting(s: Side) returns (g: bytes, rest: bytes)
    requires HandshakeSpec(s).1.Ok?
    ensures StartsWithGreeting(s, g, rest) && s.room >= 2
    ensures HandshakeSpec(s) == (Side(rest, s.room - 2, s.out + [VERSION5, NO_AUTH]), Ok(()))
  {
    var n := s.input[1] as int;
    g, rest := s.input[..2 + n], s.input[2 + n..];
    assert g[2..] == s.input[2..][..n];
    assert s.input[2..][n..] == rest;
    PutDelivers(Side(rest, s.room, s.out), [VERSION5, NO_AUTH]);
  }

  lemma GreetingAccepted(s: Side, g: bytes, rest: bytes)
    requires StartsWithGreeting(s, g, rest)
    ensures s.room >= 2 ==> HandshakeSpec(s) == (Side(rest, s.room - 2, s.out + [5, 0]), Ok(()))
    ensures s.room < 2 ==> HandshakeSpec(s).1 == Err(WriteFailed)
  {
    var head, methods := g[..2], g[2..];
    assert s.input == head + (methods + rest);
    TakePrefix(s, head, methods + rest);
    var s1 := s.(input := methods + rest);
    TakePrefix(s1, methods, rest);
    assert [VERSION5, NO_AUTH][..2] == [5, 0];
  }

  // ---------------------------------------------------------------- requests: round trip and converse

  lemma PortRoundTrip(s: Side, atyp: byte, host: string, p: port, rest: bytes)
    requires s.input == PortBytes(p) + rest && p > 0
    ensures PortSpec(s, atyp, host) == (s.(input := rest), Ok(Request(atyp, host, p)))
  {
    TakePrefix(s, PortBytes(p), rest);
  }

  lemma AddressRoundTrip(s: Side, f: Frame, rest: bytes)
    requires Supported(f) && s.input == EncodeHost(f) + rest
    ensures AddressSpec(s, AddressType(f)) == (s.(input := rest), Ok(Meaning(f).host))
  {
    match f {
      case ToQuad(q, _) =>
        TakePrefix(s, [q.a, q.b, q.c, q.d], rest);
      case ToName(name, _) =>
        assert s.input == [|name|] + (name + rest);
        TakePrefix(s, [|name|], name + rest);
        TakePrefix(s.(input := name + rest), name, rest);
    }
  }

  /** Parsing an encoded request gives it back and leaves exactly the bytes that follow it. */
  lemma ParseEncoded(s: Side, f: Frame, rest: bytes)
    requires Supported(f) && s.input == Encode(f) + rest
    ensures RequestSpec(s) == (s.(input := rest), Ok(Meaning(f)))
  {
    hide AddressSpec, PortSpec, TakeSpec, EncodeHost;
    var head, tail := [5, 1, 0, AddressType(f)], PortBytes(f.port) + rest;
    assert s.input == head + (EncodeHost(f) + tail);
    TakePrefix(s, head, EncodeHost(f) + tail);
    AddressRoundTrip(s.(input := EncodeHost(f) + tail), f, tail);
    PortRoundTrip(s.(input := tail), AddressType(f), Meaning(f).host, f.port, rest);
  }

  lemma PortAccepted(s: Side, atyp: byte, host: string)
    requires PortSpec(s, atyp, host).1.Ok?
    ensures var (t, r) := PortSpec(s, atyp, host);
            && r.value.port > 0 && r.value == Request(atyp, host, r.value.port)
            && t == s.(input := t.input) && s.input == PortBytes(r.value.port) + t.input
  {
    assert s.input == s.input[..2] + s.input[2..];
  }

  lemma AddressAccepted(s: Side, atyp: byte, p: port) returns (f: Frame)
    requires AddressSpec(s, atyp).1.Ok? && p > 0
    ensures Supported(f) && f.port == p && AddressType(f) == atyp
    ensures Meaning(f).host == AddressSpec(s, atyp).1.value
    ensures var t := AddressSpec(s, atyp).0; t == s.(input := t.input) && s.input == EncodeHost(f) + t.input
  {
    var i := s.input;
    if atyp == ATYP_IPV4 {
      f := ToQuad(Quad(i[0], i[1], i[2], i[3]), p);
      assert i == i[..4] + i[4..];
    } else {
      var n := i[0] as int;
      f := ToName(i[1..][..n], p);
      assert i == [i[0]] + i[1..][..n] + i[1..][n..];
    }
  }

  lemma TargetAccepted(s: Side, atyp: byte) returns (f: Frame)
    requires TargetSpec(s, atyp).1.Ok?
    ensures var (t, r) := TargetSpec(s, atyp);
            && Supported(f) && AddressType(f) == atyp && r.value == Meaning(f) && t == s.(input := t.input)
            && s.input == EncodeHost(f) + PortBytes(f.port) + t.input
  {
    var (s1, host) := AddressSpec(s, atyp);
    PortAccepted(s1, atyp, host.value);
    f := AddressAccepted(s, atyp, TargetSpec(s, atyp).1.value.port);
    hide AddressSpec, PortSpec, EncodeHost, Supported, PortBytes;
    assert s.input == EncodeHost(f) + (PortBytes(f.port) + TargetSpec(s, atyp).0.input);
  }

  /** Whatever the parser accepts is the encoding of a supported request, followed by what it left unread. */
  lemma AcceptedIsEncoded(s: Side) returns (f: Frame)
    requires RequestSpec(s).1.Ok?
    ensures Supported(f) && RequestSpec(s).1.value == Meaning(f)
    ensures RequestSpec(s).0 == s.(input := RequestSpec(s).0.input)
    ensures s.input == Encode(f) + RequestSpec(s).0.input
  {
    hide TargetSpec, EncodeHost, Supported, PortBytes;
    var head := s.input[..4];
    f := TargetAccepted(s.(input := s.input[4..]), head[3]);
    assert head == [5, 1, 0, AddressType(f)];
    assert s.input == head + (EncodeHost(f) + PortBytes(f.port) + RequestSpec(s).0.input);
  }

  /** No request frame is the beginning of another, so the split between frame and payload is unique. */
  lemma FramesArePrefixFree(f: Frame, x: bytes, g: Frame, y: bytes)
    requires Supported(f) && Supported(g) && Encode(f) + x == Encode(g) + y
    ensures f == g && x == y
  {
    var s := Side(Encode(f) + x, 0, []);
    ParseEncoded(s, f, x);
    ParseEncoded(s, g, y);
    match (f, g) {
      case (ToQuad(p, _), ToQuad(q, _)) => DottedQuadInjective(p, q);
      case (ToName(m, _), ToName(n, _)) => BytesTextInjective(m, n);
      case _ =>
    }
  }

  lemma BytesTextInjective(m: bytes, n: bytes)
    requires BytesText(m) == BytesText(n)
    ensures m == n
  {
    assert |m| == |BytesText(m)| == |BytesText(n)| == |n|;
    forall i | 0 <= i < |m|
      ensures m[i] == n[i]
    {
      assert BytesText(m)[i] == BytesText(n)[i];
    }
  }

  // ---------------------------------------------------------------- what the client sees

  /** The bytes a peer got: `all`, or a first part of it if the connection gave out. */
  ghost predicate Delivered(before: bytes, after: bytes, all: bytes) {
    exists k :: 0 <= k <= |all| && after == before + all[..k]
  }

  predicate IsReply(r: bytes) {
    |r| == 10 && r[0] == 5 && r[2] == 0 && r[3] == 1
  }

  lemma PutDelivers(s: Side, data: bytes)
    ensures Delivered(s.out, PutSpec(s, data).0.out, data)
    ensures PutSpec(s, data).1 ==> PutSpec(s, data).0.out == s.out + data
    ensures PutSpec(s, data).0.input == s.input
  {
    var k := if |data| <= s.room then |data| else s.room;
    assert PutSpec(s, data).0.out == s.out + data[..k];
    assert data[..|data|] == data;
  }

  /** Which reply code, if any, each reading error is answered with (RFC 1928, section 6). */
  function ReplyCode(e: WireError): Option<byte> {
    match e
    case BadCommand => Some(REPLY_COMMAND_NOT_SUPPORTED)
    case BadReserved => Some(REPLY_GENERAL_FAILURE)
    case EmptyName => Some(REPLY_ADDRESS_NOT_SUPPORTED)
    case BadAddressType => Some(REPLY_ADDRESS_NOT_SUPPORTED)
    case ZeroPort => Some(REPLY_GENERAL_FAILURE)
    case _ => None
  }

  function ReplyFor(e: WireError): bytes {
    if ReplyCode(e).Some? then FailureReply(ReplyCode(e).value) else []
  }

  ghost predicate Answers<T>(before: bytes, r: (Side, Result<T, WireError>)) {
    if r.1.Ok? then r.0.out == before else Delivered(before, r.0.out, ReplyFor(r.1.error))
  }

  lemma SilentAnswer(before: bytes)
    ensures Delivered(before, before, [])
  {
    var none: bytes := [];
    assert before == before + none[..0];
  }

  lemma PortOutput(s: Side, atyp: byte, host: string)
    ensures Answers(s.out, PortSpec(s, atyp, host))
  {
    SilentAnswer(s.out);
    PutDelivers(TakeSpec(s, 2).0, FailureReply(REPLY_GENERAL_FAILURE));
  }

  lemma AddressOutput(s: Side, atyp: byte)
    ensures Answers(s.out, AddressSpec(s, atyp))
  {
    SilentAnswer(s.out);
    PutDelivers(s, FailureReply(REPLY_ADDRESS_NOT_SUPPORTED));
    PutDelivers(TakeSpec(s, 1).0, FailureReply(REPLY_ADDRESS_NOT_SUPPORTED));
  }

  /** While a request is read the client gets the reply its error calls for, and nothing else. */
  lemma RequestOutput(s: Side)
    ensures Answers(s.out, RequestSpec(s))
  {
    hide AddressSpec, PortSpec, PutSpec, Delivered;
    SilentAnswer(s.out);
    var s1 := TakeSpec(s, 4).0;
    PutDelivers(s1, FailureReply(REPLY_COMMAND_NOT_SUPPORTED));
    PutDelivers(s1, FailureReply(REPLY_GENERAL_FAILURE));
    if |s.input| >= 4 {
      var atyp := s.input[3];
      AddressOutput(s1, atyp);
      var (s2, host) := AddressSpec(s1, atyp);
      if host.Ok? {
        PortOutput(s2, atyp, host.value);
      }
    }
  }

  lemma DeliveredAfter(a: bytes, b: bytes, c: bytes, head: bytes, tail: bytes)
    requires b == a + head && Delivered(b, c, tail)
    ensures Delivered(a, c, head + tail)
  {
    var k :| 0 <= k <= |tail| && c == b + tail[..k];
    assert (head + tail)[..|head| + k] == head + tail[..k];
    assert c == a + (head + tail[..k]);
  }

  /**
   * For every client byte stream and every routing decision: the client gets a first part of one method
   * selection followed by at most one reply, and the reply only after the selection of "no authentication".
   */
  lemma SessionOutput(s: Side, decide: Request -> Decision) returns (select: byte, reply: bytes)
    ensures Delivered(s.out, ControlSpec(s, decide).0.out, [VERSION5, select] + reply)
    ensures reply == [] || (IsReply(reply) && select == NO_AUTH)
  {
    if HandshakeSpec(s).1.Err? {
      select := HandshakeOutput(s);
      reply := [];
      hide HandshakeSpec, Delivered;
      assert [VERSION5, select] + reply == [VERSION5, select];
    } else {
      select := NO_AUTH;
      var g, rest := AcceptedGreeting(s);
      var s1 := HandshakeSpec(s).0;
      hide HandshakeSpec, Delivered, ExchangeSpec;
      reply := ExchangeOutput(s1, decide);
      DeliveredAfter(s.out, s1.out, ExchangeSpec(s1, decide).0.out, [VERSION5, NO_AUTH], reply);
    }
  }

  /** The reply part of a session whose method selection is over. */
  lemma ExchangeOutput(s: Side, decide: Request -> Decision) returns (reply: bytes)
    ensures reply == [] || IsReply(reply)
    ensures Delivered(s.out, ExchangeSpec(s, decide).0.out, reply)
  {
    RequestOutput(s);
    hide RequestSpec, Delivered;
    var (t, req) := RequestSpec(s);
    if req.Err? {
      reply := ReplyFor(req.error);
    } else {
      reply := Answer(decide(req.value));
      PutDelivers(t, reply);
    }
  }

  lemma HandshakeOutput(s: Side) returns (select: byte)
    ensures Delivered(s.out, HandshakeSpec(s).0.out, [5, select])
  {
    var (t, r) := HandshakeSpec(s);
    select := if r == Err(NoCommonMethod) || (r == Err(WriteFailed) && NO_AUTH !in s.input[2..][..s.input[1]])
        then NO_ACCEPTABLE else 0;
    if r.Ok? || r == Err(WriteFailed) || r == Err(NoCommonMethod) {
      var u := TakeSpec(TakeSpec(s, 2).0, s.input[1]).0;
      PutDelivers(u, [5, select]);
    } else {
      assert t.out == s.out + [5, select][..0];
    }
  }

  /** A session that reached the relay, seen from outside: greeting, request frame, selection and reply. */
  ghost predicate Established(s: Side, t: Side, req: Request, g: bytes, f: Frame, local: LocalAddr) {
    && OffersNoAuth(g) && Supported(f) && req == Meaning(f)
    && s.input == g + Encode(f) + t.input
    && t.out == s.out + [VERSION5, NO_AUTH] + BoundReply(local)
  }

  /**
   * The relay starts only after a complete selection and a complete reply, and what is left for the backend
   * is exactly what the client sent after its request frame.
   */
  lemma RelayGetsTheRest(s: Side, decide: Request -> Decision) returns (g: bytes, f: Frame, local: LocalAddr)
    requires ControlSpec(s, decide).1.Relaying?
    ensures var (t, o) := ControlSpec(s, decide);
            Established(s, t, o.request, g, f, local) && decide(o.request) == Connected(local)
  {
    hide HandshakeSpec, OffersNoAuth, ExchangeSpec, BoundReply, Encode, Supported, Meaning;
    var rest;
    g, rest := AcceptedGreeting(s);
    var s1 := HandshakeSpec(s).0;
    f, local := ExchangeRelays(s1, decide);
    assert s.input == g + (Encode(f) + ExchangeSpec(s1, decide).0.input);
  }

  lemma ExchangeRelays(s: Side, decide: Request -> Decision) returns (f: Frame, local: LocalAddr)
    requires ExchangeSpec(s, decide).1.Relaying?
    ensures var (t, o) := ExchangeSpec(s, decide);
            && Supported(f) && o.request == Meaning(f) && decide(o.request) == Connected(local)
            && s.input == Encode(f) + t.input && t.out == s.out + BoundReply(local)
  {
    f := AcceptedIsEncoded(s);
    hide RequestSpec, Encode, BoundReply;
    local := decide(Meaning(f)).local;
    PutDelivers(RequestSpec(s).0, BoundReply(local));
  }

  /** That reply reports success exactly when the backend connection has a TCP local address. */
  lemma ReplyReportsSuccessIff(local: LocalAddr)
    ensures IsReply(BoundReply(local))
    ensures BoundReply(local)[1] == REPLY_SUCCESS <==> local.Tcp?
    ensures local.Tcp? && local.ip4.Some? ==>
              BoundReply(local)[4..] == EncodeHost(ToQuad(local.ip4.value, 1)) + PortBytes(local.port)
  {
  }

  /** And it does start: a well-formed session with room for the answers relays iff a backend was connected. */
  lemma WellFormedSessionRelays(s: Side, decide: Request -> Decision, g: bytes, f: Frame, rest: bytes)
    requires Supported(f) && OffersNoAuth(g) && s.room >= 12 && s.input == g + Encode(f) + rest
    ensures ControlSpec(s, decide).1 == Relaying(Meaning(f)) <==> decide(Meaning(f)).Connected?
    ensures ControlSpec(s, decide).0.input == rest
  {
    hide HandshakeSpec, RequestSpec, OffersNoAuth, Supported, Encode, Meaning, Answer, PutSpec;
    assert s.input == g + (Encode(f) + rest);
    GreetingAccepted(s, g, Encode(f) + rest);
    var s1 := Side(Encode(f) + rest, s.room - 2, s.out + [5, 0]);
    ParseEncoded(s1, f, rest);
    AnswerFits(Side(rest, s.room - 2, s.out + [5, 0]), decide(Meaning(f)));
  }

  lemma AnswerFits(s: Side, d: Decision)
    requires s.room >= 10
    ensures PutSpec(s, Answer(d)).1 && PutSpec(s, Answer(d)).0.input == s.input
  {
  }

  lemma {:induction false} FlatConcat(a: seq<bytes>, b: seq<bytes>)
    ensures Flat(a + b) == Flat(a) + Flat(b)
  {
    if a == [] {
      assert a + b == b;
    } else {
      assert (a + b)[1..] == a[1..] + b;
      FlatConcat(a[1..], b);
    }
  }

  /**
   * Cutting any piece of the client's stream in two changes nothing: neither the value of the connection nor,
   * with it, anything that ServeControl consumes, writes or decides.
   */
  lemma CuttingIsInvisible(before: seq<bytes>, piece: bytes, i: nat, after: seq<bytes>, room: nat, out: bytes,
                           decide: Request -> Decision)
    requires i <= |piece|
    ensures var whole, cut := before + [piece] + after, before + [piece[..i], piece[i..]] + after;
            && Flat(whole) == Flat(cut)
            && ControlSpec(Side(Flat(whole), room, out), decide) == ControlSpec(Side(Flat(cut), room, out), decide)
  {
    hide ControlSpec, Flat;
    CutPiece(piece, i);
    FlatConcat(before + [piece], after);
    FlatConcat(before, [piece]);
    FlatConcat(before + [piece[..i], piece[i..]], after);
    FlatConcat(before, [piece[..i], piece[i..]]);
  }

  lemma CutPiece(piece: bytes, i: nat)
    requires i <= |piece|
    ensures Flat([piece[..i], piece[i..]]) == Flat([piece])
  {
    FlatConcat([piece[..i]], [piece[i..]]);
    assert [piece[..i], piece[i..]] == [piece[..i]] + [piece[i..]];
    FlatOne(piece);
    FlatOne(piece[..i]);
    FlatOne(piece[i..]);
    hide Flat;
    assert piece[..i] + piece[i..] == piece;
  }

  lemma FlatOne(piece: bytes)
    ensures Flat([piece]) == piece
  {
    assert Flat([piece]) == piece + Flat([]);
  }

  /** A stream cut into pieces of the given sizes, and a last piece with what is left. */
  function CutInto(stream: bytes, sizes: seq<nat>): seq<bytes> {
    if sizes == [] then (if stream == [] then [] else [stream])
    else if sizes[0] <= |stream| then [stream[..sizes[0]]] + CutInto(stream[sizes[0]..], sizes[1..])
    else [stream]
  }

  function Sizes(chunks: seq<bytes>): seq<nat> {
    if chunks == [] then [] else [|chunks[0]|] + Sizes(chunks[1..])
  }

  /** However a stream is cut, its pieces make up the stream. */
  lemma {:induction false} CutIntoFlat(stream: bytes, sizes: seq<nat>)
    ensures Flat(CutInto(stream, sizes)) == stream
  {
    if sizes == [] || sizes[0] > |stream| {
      if stream != [] || sizes != [] {
        FlatOne(stream);
      }
    } else {
      var head, tail := stream[..sizes[0]], stream[sizes[0]..];
      CutIntoFlat(tail, sizes[1..]);
      var rest := CutInto(tail, sizes[1..]);
      assert ([head] + rest)[1..] == rest;
      assert head + tail == stream;
    }
  }

  /** And every list of pieces is a cutting of the stream it makes up. */
  lemma {:induction false} ChunksAreACutting(chunks: seq<bytes>)
    ensures CutInto(Flat(chunks), Sizes(chunks)) == chunks
  {
    if chunks != [] {
      var stream := Flat(chunks);
      ChunksAreACutting(chunks[1..]);
      assert stream[..|chunks[0]|] == chunks[0] && stream[|chunks[0]|..] == Flat(chunks[1..]);
      assert Sizes(chunks)[1..] == Sizes(chunks[1..]);
      assert chunks == [chunks[0]] + chunks[1..];
    }
  }

  /**
   * Two lists of pieces give ServeControl the same value to start from, and so the same outcome, exactly when
   * they are cuttings of one stream: how the client's bytes arrive does not matter, and the bytes are all
   * that does.
   */
  lemma SameStreamIff(a: seq<bytes>, b: seq<bytes>, room: nat, out: bytes)
    ensures Side(Flat(a), room, out) == Side(Flat(b), room, out) <==>
            exists stream, x, y :: a == CutInto(stream, x) && b == CutInto(stream, y)
  {
    hide Flat, CutInto, Sizes;
    if Flat(a) == Flat(b) {
      ChunksAreACutting(a);
      ChunksAreACutting(b);
      assert a == CutInto(Flat(a), Sizes(a)) && b == CutInto(Flat(a), Sizes(b));
    }
    if stream, x, y :| a == CutInto(stream, x) && b == CutInto(stream, y) {
      CutIntoFlat(stream, x);
      CutIntoFlat(stream, y);
    }
  }
}
