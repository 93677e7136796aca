/** SOCKS5 frames (RFC 1928, sections 3 to 6): reading them off a stream piece by piece, and answering. */
module Wire {
  import opened Text
  import opened Addresses

  const VERSION5: byte := 5
  const NO_AUTH: byte := 0
  const NO_ACCEPTABLE: byte := 0xff
  const CMD_CONNECT: byte := 1
  const ATYP_IPV4: byte := 1
  const ATYP_FQDN: byte := 3
  const REPLY_SUCCESS: byte := 0
  const REPLY_GENERAL_FAILURE: byte := 1
  const REPLY_HOST_UNREACHABLE: byte := 4
  const REPLY_COMMAND_NOT_SUPPORTED: byte := 7
  const REPLY_ADDRESS_NOT_SUPPORTED: byte := 8

  type bytes = seq<byte>

  /** One end of a connection as plain values: bytes still to come, bytes the peer will still take, bytes it got. */
  datatype Side = Side(input: bytes, room: nat, out: bytes)

  datatype Request = Request(atyp: byte, host: string, port: port)

  datatype WireError =
    | ShortRead
    | BadVersion
    | NoMethods
    | WriteFailed
    | NoCommonMethod
    | BadCommand
    | BadReserved
    | EmptyName
    | BadAddressType
    | ZeroPort

  function Flat(chunks: seq<bytes>): bytes {
    if chunks == [] then [] else chunks[0] + Flat(chunks[1..])
  }

  /** net.Conn: input arrives in pieces of any size; a write may stop part-way for good. */
  class Conn {
    var chunks: seq<bytes>
    var room: nat
    var out: bytes

    function Value(): Side
      reads this
    {
      Side(Flat(chunks), room, out)
    }

    /** One Read call: at most n bytes of the next piece; None at the end of the stream. */
    method Read(n: nat) returns (r: Option<bytes>)
      modifies this`chunks
      ensures r.None? ==> old(chunks) == [] && chunks == []
      ensures r.Some? ==> |r.value| <= n && old(Flat(chunks)) == r.value + Flat(chunks)
      ensures r.Some? && n > 0 ==> r.value != [] || |chunks| < |old(chunks)|
    {
      if chunks == [] {
        return None;
      }
      var first := chunks[0];
      if |first| <= n {
        r := Some(first);
        chunks := chunks[1..];
      } else {
        r := Some(first[..n]);
        chunks := [first[n..]] + chunks[1..];
        assert first == first[..n] + first[n..];
      }
    }

    /** io.ReadFull */
    method ReadFull(n: nat) returns (r: Option<bytes>)
      modifies this`chunks
      ensures (Value(), r) == TakeSpec(old(Value()), n)
    {
      var got: bytes := [];
      while |got| < n
        invariant |got| <= n
        invariant old(Flat(chunks)) == got + Flat(chunks)
        decreases n - |got|, |chunks|
      {
        var piece := Read(n - |got|);
        if piece.None? {
          return None;
        }
        got := got + piece.value;
      }
      r := Some(got);
    }

    method Write(data: bytes) returns (ok: bool)
      modifies this`room, this`out
      ensures (Value(), ok) == PutSpec(old(Value()), data)
    {
      var k := if |data| <= room then |data| else room;
      out := out + data[..k];
      room := room - k;
      ok := k == |data|;
    }
  }

  function TakeSpec(s: Side, n: nat): (Side, Option<bytes>) {
    if n <= |s.input| then (s.(input := s.input[n..]), Some(s.input[..n])) else (s.(input := []), None)
  }

  function PutSpec(s: Side, data: bytes): (Side, bool) {
    var k := if |data| <= s.room then |data| else s.room;
    (s.(out := s.out + data[..k], room := s.room - k), k == |data|)
  }

  // ---------------------------------------------------------------- method selection

  function HandshakeSpec(s: Side): (Side, Result<(), WireError>) {
    var (s1, header) := TakeSpec(s, 2);
    if header.None? then (s1, Err(ShortRead))
    else if header.value[0] != VERSION5 then (s1, Err(BadVersion))
    else if header.value[1] == 0 then (s1, Err(NoMethods))
    else
      var (s2, methods) := TakeSpec(s1, header.value[1]);
      if methods.None? then (s2, Err(ShortRead))
      else
        var selected := if NO_AUTH in methods.value then NO_AUTH else NO_ACCEPTABLE;
        var (s3, ok) := PutSpec(s2, [VERSION5, selected]);
        if !ok then (s3, Err(WriteFailed))
        else if selected != NO_AUTH then (s3, Err(NoCommonMethod))
        else (s3, Ok(()))
  }

  method HandleHandshake(conn: Conn) returns (r: Result<(), WireError>)
    modifies conn
    ensures (conn.Value(), r) == HandshakeSpec(old(conn.Value()))
  {
    var header := conn.ReadFull(2);
    if header.None? {
      return Err(ShortRead);
    }
    if header.value[0] != VERSION5 {
      return Err(BadVersion);
    }
    var nMethods := header.value[1];
    if nMethods == 0 {
      return Err(NoMethods);
    }
    var methods := conn.ReadFull(nMethods);
    if methods.None? {
      return Err(ShortRead);
    }
    var selected := NO_ACCEPTABLE;
    var i := 0;
    while i < nMethods && selected != NO_AUTH
      invariant 0 <= i <= nMethods
      invariant selected == if NO_AUTH in methods.value[..i] then NO_AUTH else NO_ACCEPTABLE
    {
      if methods.value[i] == NO_AUTH {
        selected := NO_AUTH;
      }
      i := i + 1;
    }
    assert methods.value[..nMethods] == methods.value;
    var ok := conn.Write([VERSION5, selected]);
    if !ok {
      return Err(WriteFailed);
    }
    if selected != NO_AUTH {
      return Err(NoCommonMethod);
    }
    r := Ok(());
  }

  // ---------------------------------------------------------------- requests

  function FailureReply(code: byte): bytes {
    [VERSION5, code, 0, ATYP_IPV4, 0, 0, 0, 0, 0, 0]
  }

  function Refuse(s: Side, code: byte, e: WireError): (Side, Result<Request, WireError>) {
    (PutSpec(s, FailureReply(code)).0, Err(e))
  }

  /** binary.BigEndian.Uint16 */
  function BigEndian(hi: byte, lo: byte): port {
    256 * hi as int + lo as int
  }

  /** string(name): one character per byte. */
  function BytesText(b: bytes): string {
    seq(|b|, i requires 0 <= i < |b| => b[i] as char)
  }

  function PortSpec(s: Side, atyp: byte, host: string): (Side, Result<Request, WireError>) {
    var (s1, b) := TakeSpec(s, 2);
    if b.None? then (s1, Err(ShortRead))
    else
      var p := BigEndian(b.value[0], b.value[1]);
      if p == 0 then Refuse(s1, REPLY_GENERAL_FAILURE, ZeroPort)
      else (s1, Ok(Request(atyp, host, p)))
  }

  function AddressSpec(s: Side, atyp: byte): (Side, Result<string, WireError>) {
    if atyp == ATYP_IPV4 then
      var (s1, addr) := TakeSpec(s, 4);
      if addr.None? then (s1, Err(ShortRead))
      else (s1, Ok(DottedQuad(Quad(addr.value[0], addr.value[1], addr.value[2], addr.value[3]))))
    else if atyp == ATYP_FQDN then NameSpec(s)
    else (PutSpec(s, FailureReply(REPLY_ADDRESS_NOT_SUPPORTED)).0, Err(BadAddressType))
  }

  function NameSpec(s: Side): (Side, Result<string, WireError>) {
    var (s1, size) := TakeSpec(s, 1);
    if size.None? then (s1, Err(ShortRead))
    else if size.value[0] == 0 then (PutSpec(s1, FailureReply(REPLY_ADDRESS_NOT_SUPPORTED)).0, Err(EmptyName))
    else
      var (s2, name) := TakeSpec(s1, size.value[0]);
      if name.None? then (s2, Err(ShortRead)) else (s2, Ok(BytesText(name.value)))
  }

  /** Address and port, after the four header bytes. */
  function TargetSpec(s: Side, atyp: byte): (Side, Result<Request, WireError>) {
    var (s1, host) := AddressSpec(s, atyp);
    if host.Err? then (s1, Err(host.error)) else PortSpec(s1, atyp, host.value)
  }

  function RequestSpec(s: Side): (Side, Result<Request, WireError>) {
    var (s1, header) := TakeSpec(s, 4);
    if header.None? then (s1, Err(ShortRead))
    else
      var h := header.value;
      if h[0] != VERSION5 then (s1, Err(BadVersion))
      else if h[1] != CMD_CONNECT then Refuse(s1, REPLY_COMMAND_NOT_SUPPORTED, BadCommand)
      else if h[2] != 0 then Refuse(s1, REPLY_GENERAL_FAILURE, BadReserved)
      else TargetSpec(s1, h[3])
  }

  method WriteFailureReply(conn: Conn, code: byte) returns (ok: bool)
    modifies conn
    ensures (conn.Value(), ok) == PutSpec(old(conn.Value()), FailureReply(code))
  {
    ok := conn.Write([VERSION5, code, 0, ATYP_IPV4, 0, 0, 0, 0, 0, 0]);
  }

  method ReadRequest(conn: Conn) returns (r: Result<Request, WireError>)
    modifies conn
    ensures (conn.Value(), r) == RequestSpec(old(conn.Value()))
  {
    var header := conn.ReadFull(4);
    if header.None? {
      return Err(ShortRead);
    }
    if header.value[0] != VERSION5 {
      return Err(BadVersion);
    }
    if header.value[1] != CMD_CONNECT {
      var _ := WriteFailureReply(conn, REPLY_COMMAND_NOT_SUPPORTED);
      return Err(BadCommand);
    }
    if header.value[2] != 0 {
      var _ := WriteFailureReply(conn, REPLY_GENERAL_FAILURE);
      return Err(BadReserved);
    }
    var atyp := header.value[3];
    var host: string;
    if atyp == ATYP_IPV4 {
      var addr := conn.ReadFull(4);
      if addr.None? {
        return Err(ShortRead);
      }
      host := DottedQuad(Quad(addr.value[0], addr.value[1], addr.value[2], addr.value[3]));
    } else if atyp == ATYP_FQDN {
      var size := conn.ReadFull(1);
      if size.None? {
        return Err(ShortRead);
      }
      if size.value[0] == 0 {
        var _ := WriteFailureReply(conn, REPLY_ADDRESS_NOT_SUPPORTED);
        return Err(EmptyName);
      }
      var name := conn.ReadFull(size.value[0]);
      if name.None? {
        return Err(ShortRead);
      }
      host := BytesText(name.value);
    } else {
      // IPv6 and unknown address types get the same reply
      var _ := WriteFailureReply(conn, REPLY_ADDRESS_NOT_SUPPORTED);
      return Err(BadAddressType);
    }
    var portBytes := conn.ReadFull(2);
    if portBytes.None? {
      return Err(ShortRead);
    }
    var p := BigEndian(portBytes.value[0], portBytes.value[1]);
    if p == 0 {
      var _ := WriteFailureReply(conn, REPLY_GENERAL_FAILURE);
      return Err(ZeroPort);
    }
    r := Ok(Request(atyp, host, p));
  }

  // ---------------------------------------------------------------- replies and the control phase

  /** The proxy's own end of the backend connection: a TCP address (with or without a 4-byte form) or not. */
  datatype LocalAddr = Tcp(ip4: Option<Quad>, port: port) | NotTcp

  function SuccessReply(local: LocalAddr): bytes
    requires local.Tcp?
  {
    var q := if local.ip4.Some? then local.ip4.value else Quad(0, 0, 0, 0);
    [VERSION5, REPLY_SUCCESS, 0, ATYP_IPV4, q.a, q.b, q.c, q.d, local.port / 256, local.port % 256]
  }

  function BoundReply(local: LocalAddr): bytes {
    if local.Tcp? then SuccessReply(local) else FailureReply(REPLY_GENERAL_FAILURE)
  }

  method WriteSuccessReply(conn: Conn, local: LocalAddr) returns (ok: bool)
    modifies conn
    ensures (conn.Value(), ok) == PutSpec(old(conn.Value()), BoundReply(local))
  {
    if local.NotTcp? {
      ok := WriteFailureReply(conn, REPLY_GENERAL_FAILURE);
      return;
    }
    var ip4 := if local.ip4.Some? then local.ip4.value else Quad(0, 0, 0, 0);
    ok := conn.Write([VERSION5, REPLY_SUCCESS, 0, ATYP_IPV4, ip4.a, ip4.b, ip4.c, ip4.d, local.port / 256,
        local.port % 256]);
  }

  /** What routing and dialling decide about a request. */
  datatype Decision = Refused | Connected(local: LocalAddr)

  datatype Outcome = Failed(error: WireError) | TurnedAway | ReplyLost | Relaying(request: Request)

  function Answer(d: Decision): bytes {
    if d.Refused? then FailureReply(REPLY_HOST_UNREACHABLE) else BoundReply(d.local)
  }

  function AnswerSpec(s: Side, req: Request, d: Decision): (Side, Outcome) {
    var (t, ok) := PutSpec(s, Answer(d));
    (t, if d.Refused? then TurnedAway else if ok then Relaying(req) else ReplyLost)
  }

  /** Request and answer, once the method selection is done. */
  function ExchangeSpec(s: Side, decide: Request -> Decision): (Side, Outcome) {
    var (t, req) := RequestSpec(s);
    if req.Err? then (t, Failed(req.error)) else AnswerSpec(t, req.value, decide(req.value))
  }

  function ControlSpec(s: Side, decide: Request -> Decision): (Side, Outcome) {
    var (t, hello) := HandshakeSpec(s);
    if hello.Err? then (t, Failed(hello.error)) else ExchangeSpec(t, decide)
  }

  /** The client-side traffic of handleConnection up to the point where the relay takes over. */
  method ServeControl(conn: Conn, decide: Request -> Decision) returns (o: Outcome)
    modifies conn
    ensures (conn.Value(), o) == ControlSpec(old(conn.Value()), decide)
  {
    var hello := HandleHandshake(conn);
    if hello.Err? {
      return Failed(hello.error);
    }
    var req := ReadRequest(conn);
    if req.Err? {
      return Failed(req.error);
    }
    match decide(req.value) {
      case Refused =>
        var _ := WriteFailureReply(conn, REPLY_HOST_UNREACHABLE);
        return TurnedAway;
      case Connected(local) =>
        var ok := WriteSuccessReply(conn, local);
        o := if ok then Relaying(req.value) else ReplyLost;
    }
  }
}
