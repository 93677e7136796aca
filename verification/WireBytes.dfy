/** The control traffic byte by byte, with the numbers of RFC 1928 written out. */
module WireBytes {
  import opened Text
  import opened Addresses
  import opened Wire
  import opened WireLaws

  // ---------------------------------------------------------------- frames

  /** The reply frame that carries nothing but a code. */
  function Bare(code: byte): bytes {
    [5, code, 0, 1, 0, 0, 0, 0, 0, 0]
  }

  /** A text whose characters have these codes. */
  ghost predicate SpelledBy(text: string, name: bytes) {
    |text| == |name| && forall k :: 0 <= k < |name| ==> text[k] as int == name[k]
  }

  /** What an encoded request is, and what it means. */
  lemma FrameBytes(f: Frame)
    requires Supported(f)
    ensures f.ToQuad? ==>
              var q := f.quad;
              && Encode(f) == [5, 1, 0, 1, q.a, q.b, q.c, q.d, f.port / 256, f.port % 256]
              && Meaning(f).atyp == 1 && Meaning(f).host == DottedQuad(q)
    ensures f.ToName? ==>
              && Encode(f) == [5, 1, 0, 3, |f.name|] + f.name + [f.port / 256, f.port % 256]
              && Meaning(f).atyp == 3 && SpelledBy(Meaning(f).host, f.name)
    ensures Meaning(f).port == f.port && f.port / 256 * 256 + f.port % 256 == f.port
  {
    if f.ToName? {
      assert [5, 1, 0, 3] + ([|f.name|] + f.name) == [5, 1, 0, 3, |f.name|] + f.name;
    }
  }

  // ---------------------------------------------------------------- the handshake

  /** Which greeting meets which end; a short read is what is left when none of the others applies. */
  lemma HandshakeErrors(s: Side)
    ensures var n, e := |s.input|, HandshakeSpec(s).1;
            && (e == Err(BadVersion) <==> n >= 2 && s.input[0] != 5)
            && (e == Err(NoMethods) <==> n >= 2 && s.input[0] == 5 && s.input[1] == 0)
            && (e == Err(ShortRead) <==> n < 2 || (s.input[0] == 5 && s.input[1] > 0 && n < 2 + s.input[1] as int))
            && (e == Err(WriteFailed) <==>
                  n >= 2 && s.input[0] == 5 && s.input[1] > 0 && n >= 2 + s.input[1] as int && s.room < 2)
            && (e == Err(NoCommonMethod) <==>
                  && n >= 2 && s.input[0] == 5 && s.input[1] > 0 && n >= 2 + s.input[1] as int && s.room >= 2
                  && 0 !in s.input[2..2 + s.input[1] as int])
  {
    if |s.input| >= 2 {
      var m := s.input[1] as int;
      if |s.input| >= 2 + m {
        assert s.input[2..][..m] == s.input[2..2 + m];
      }
    }
  }

  /** What a client that offers no acceptable method is told, and one that does. */
  lemma HandshakeBytes(s: Side)
    ensures var (t, e) := HandshakeSpec(s);
            && (e == Err(NoCommonMethod) ==> t.out == s.out + [5, 255])
            && (e.Ok? ==> t.out == s.out + [5, 0])
            && (e == Err(BadVersion) || e == Err(NoMethods) || e == Err(ShortRead) ==> t.out == s.out)
  {
    if HandshakeSpec(s).1.Ok? {
      var g, rest := AcceptedGreeting(s);
    } else if HandshakeSpec(s).1 == Err(NoCommonMethod) {
      assert [VERSION5, NO_ACCEPTABLE][..2] == [5, 255];
    }
  }

  // ---------------------------------------------------------------- the request

  /** The reply code of each error that is answered. */
  function CodeOf(e: WireError): Option<byte> {
    match e
    case BadCommand => Some(7)
    case BadReserved => Some(1)
    case EmptyName => Some(8)
    case BadAddressType => Some(8)
    case ZeroPort => Some(1)
    case _ => None
  }

  lemma ReplyBytes(e: WireError)
    ensures ReplyFor(e) == if CodeOf(e).Some? then Bare(CodeOf(e).value) else []
  {
  }

  /** Which header meets which error. */
  lemma RequestErrors(s: Side)
    ensures var n, r := |s.input|, RequestSpec(s).1;
            && (r == Err(BadVersion) <==> n >= 4 && s.input[0] != 5)
            && (r == Err(BadCommand) <==> n >= 4 && s.input[0] == 5 && s.input[1] != 1)
            && (r == Err(BadReserved) <==> n >= 4 && s.input[0] == 5 && s.input[1] == 1 && s.input[2] != 0)
            && (r == Err(BadAddressType) <==>
                  n >= 4 && s.input[0] == 5 && s.input[1] == 1 && s.input[2] == 0 && s.input[3] != 1 && s.input[3] != 3)
            && (r == Err(EmptyName) <==>
                  n >= 5 && s.input[0] == 5 && s.input[1] == 1 && s.input[2] == 0 && s.input[3] == 3 && s.input[4] == 0)
  {
  }

  lemma PutAll(s: Side, data: bytes)
    requires s.room >= |data|
    ensures PutSpec(s, data) == (Side(s.input, s.room - |data|, s.out + data), true)
  {
    assert data[..|data|] == data;
  }

  /** While a request is read the client gets exactly the reply of its error, if there is room for it. */
  lemma RequestBytes(s: Side)
    requires s.room >= 10
    ensures var (t, r) := RequestSpec(s);
            && (r.Ok? ==> t.out == s.out && t.room == s.room)
            && (r.Err? ==> t.out == s.out + if CodeOf(r.error).Some? then Bare(CodeOf(r.error).value) else [])
  {
    assert s.out + [] == s.out;
    PutAll(TakeSpec(s, 4).0, Bare(7));
    PutAll(TakeSpec(s, 4).0, Bare(1));
    if |s.input| >= 4 {
      TargetBytes(TakeSpec(s, 4).0, s.input[3]);
    }
    hide TargetSpec, PutSpec;
  }

  lemma TargetBytes(s: Side, atyp: byte)
    requires s.room >= 10
    ensures var (t, r) := TargetSpec(s, atyp);
            && (r.Ok? ==> t.out == s.out && t.room == s.room)
            && (r.Err? ==> t.out == s.out + if CodeOf(r.error).Some? then Bare(CodeOf(r.error).value) else [])
  {
    assert s.out + [] == s.out;
    PutAll(s, Bare(8));
    PutAll(TakeSpec(s, 1).0, Bare(8));
    AddressRoom(s, atyp);
    if AddressSpec(s, atyp).1.Ok? {
      PutAll(TakeSpec(AddressSpec(s, atyp).0, 2).0, Bare(1));
    }
    hide PutSpec;
  }

  lemma AddressRoom(s: Side, atyp: byte)
    ensures AddressSpec(s, atyp).1.Ok? ==> AddressSpec(s, atyp).0.room == s.room
  {
  }

  // ---------------------------------------------------------------- the answer

  /** A client that is turned away is told 4, host unreachable. */
  lemma RefusalBytes()
    ensures Answer(Refused) == Bare(4)
  {
  }

  /** A connected client is told 0 with the local address and port; an address without a 4-byte form is all zero. */
  lemma SuccessBytes(local: LocalAddr)
    ensures local.NotTcp? ==> Answer(Wire.Connected(local)) == Bare(1)
    ensures local.Tcp? ==>
              var q := if local.ip4.Some? then local.ip4.value else Quad(0, 0, 0, 0);
              Answer(Wire.Connected(local)) == [5, 0, 0, 1, q.a, q.b, q.c, q.d, local.port / 256, local.port % 256]
  {
  }

  /** All a client can be sent in the control phase, if the connection takes it: by how the phase ended. */
  function Transcript(o: Outcome, d: Decision): bytes {
    match o
    case TurnedAway => [5, 0] + Bare(4)
    case ReplyLost => []
    case Relaying(_) => [5, 0] + Answer(d)
    case Failed(e) =>
      match e
      case NoCommonMethod => [5, 255]
      case BadCommand => [5, 0] + Bare(7)
      case BadReserved => [5, 0] + Bare(1)
      case EmptyName => [5, 0] + Bare(8)
      case BadAddressType => [5, 0] + Bare(8)
      case ZeroPort => [5, 0] + Bare(1)
      case _ => []
  }

  /** The errors that say nothing about how far the session got. */
  predicate Ambiguous(o: Outcome) {
    o == Failed(BadVersion) || o == Failed(ShortRead)
  }

  /**
   * Every byte of a whole session, if the connection takes them: a selection and a reply as the outcome says;
   * a wrong version or a short stream is met with silence, or with the selection alone.
   */
  lemma SessionBytes(s: Side, decide: Request -> Decision, req: Request)
    requires s.room >= 12
    requires ControlSpec(s, decide).1.Relaying? ==> ControlSpec(s, decide).1.request == req
    ensures var (t, o) := ControlSpec(s, decide);
            && o != ReplyLost
            && (!Ambiguous(o) ==> t.out == s.out + Transcript(o, decide(req)))
            && (Ambiguous(o) ==> t.out == s.out || t.out == s.out + [5, 0])
  {
    hide HandshakeSpec, ExchangeSpec, Answer, PutSpec, RequestSpec, SpelledBy, Encode;
    HandshakeBytes(s);
    if HandshakeSpec(s).1.Ok? {
      var u := HandshakeSpec(s).0;
      HandshakeRoom(s);
      ExchangeBytes(u, decide, req);
      var o := ExchangeSpec(u, decide).1;
      assert s.out + [5, 0] + Reply(o, decide(req)) == s.out + ([5, 0] + Reply(o, decide(req)));
    } else {
      FailedHello(s, decide(req));
    }
  }

  lemma FailedHello(s: Side, d: Decision)
    requires s.room >= 2 && HandshakeSpec(s).1.Err?
    ensures var (t, o) := (HandshakeSpec(s).0, Failed(HandshakeSpec(s).1.error));
            && (!Ambiguous(o) ==> t.out == s.out + Transcript(o, d))
            && (Ambiguous(o) ==> t.out == s.out)
  {
    assert s.out + [] == s.out;
    PutAll(s, [5, 0]);
    PutAll(s, [5, 255]);
  }

  lemma HandshakeRoom(s: Side)
    ensures HandshakeSpec(s).1.Ok? ==> HandshakeSpec(s).0.room == s.room - 2
  {
  }

  /** The reply part of a transcript. */
  function Reply(o: Outcome, d: Decision): bytes {
    match o
    case TurnedAway => Bare(4)
    case Relaying(_) => Answer(d)
    case Failed(e) => if CodeOf(e).Some? then Bare(CodeOf(e).value) else []
    case ReplyLost => []
  }

  lemma ExchangeBytes(s: Side, decide: Request -> Decision, req: Request)
    requires s.room >= 10
    requires ExchangeSpec(s, decide).1.Relaying? ==> ExchangeSpec(s, decide).1.request == req
    ensures var (t, o) := ExchangeSpec(s, decide);
            && o != ReplyLost && t.out == s.out + Reply(o, decide(req))
            && (o.Failed? ==> o.error.ShortRead? || o.error.BadVersion? || CodeOf(o.error).Some?)
  {
    hide RequestSpec, PutSpec, Answer;
    RequestBytes(s);
    RequestErrorKinds(s);
    var (u, r) := RequestSpec(s);
    if r.Ok? {
      AnswerLength(decide(r.value));
      PutAll(u, Answer(decide(r.value)));
      RefusalBytes();
    }
  }

  lemma AnswerLength(d: Decision)
    ensures |Answer(d)| == 10
  {
  }

  lemma RequestErrorKinds(s: Side)
    ensures var r := RequestSpec(s).1;
            r.Err? ==> r.error.ShortRead? || r.error.BadVersion? || CodeOf(r.error).Some?
  {
  }

  /**
   * Over a whole session that the connection takes in full, the client is told success - a reply whose second
   * byte is 0 - exactly when the request was accepted and the decision was a connection with a TCP address.
   */
  lemma ToldSuccessIff(s: Side, decide: Request -> Decision)
    requires s.room >= 12
    ensures var (t, o) := ControlSpec(s, decide);
            var told := t.out[|s.out|..];
            && |s.out| <= |t.out|
            && (|told| == 12 && told[3] == 0 <==>
                  o.Relaying? && decide(o.request).Connected? && decide(o.request).local.Tcp?)
  {
    hide *;
    var (t, o) := ControlSpec(s, decide);
    var req := if o.Relaying? then o.request else Request(0, "", 0);
    SessionBytes(s, decide, req);
    if o.Relaying? {
      RelayMeansConnected(s, decide);
    }
    TranscriptTells(o, decide(req));
    TellsNothing(o);
    if !Ambiguous(o) {
      assert t.out[|s.out|..] == Transcript(o, decide(req));
    }
  }

  lemma TellsNothing(o: Outcome)
    ensures Ambiguous(o) ==> o.Failed?
  {
  }

  /** A transcript is a selection and a reply with second byte 0 exactly for a connection with a TCP address. */
  lemma TranscriptTells(o: Outcome, d: Decision)
    requires o.Relaying? ==> d.Connected?
    ensures var told := Transcript(o, d);
            |told| == 12 && told[3] == 0 <==> o.Relaying? && d.Connected? && d.local.Tcp?
  {
    if o.Relaying? {
      SuccessBytes(d.local);
      AnswerLength(d);
    }
    hide Answer;
  }

  lemma RelayMeansConnected(s: Side, decide: Request -> Decision)
    requires ControlSpec(s, decide).1.Relaying?
    ensures decide(ControlSpec(s, decide).1.request).Connected?
  {
    hide HandshakeSpec, RequestSpec, PutSpec;
  }
}
