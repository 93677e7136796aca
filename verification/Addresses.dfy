/** Textual addresses: Go's "%d", net.IP.String and net.JoinHostPort on the addresses the proxy handles. */
module Addresses {
  import opened Text

  type byte = x: int | 0 <= x < 256

  type port = x: int | 0 <= x < 0x1_0000

  /** Four bytes of an IPv4 address. */
  datatype Quad = Quad(a: byte, b: byte, c: byte, d: byte)

  /** What net.ResolveTCPAddr can yield: no host at all (":80"), an IPv4 or an IPv6 address. */
  datatype IP = NoIP | V4(quad: Quad) | V6(text: string, unspecified: bool)

  datatype TcpAddr = TcpAddr(ip: IP, port: port)

  function Digit(d: int): char
    requires 0 <= d < 10
  {
    '0' + d as char
  }

  function Decimal(n: nat): string {
    if n < 10 then [Digit(n)] else Decimal(n / 10) + [Digit(n % 10)]
  }

  predicate IsDigit(c: char) {
    '0' <= c <= '9'
  }

  function DecimalValue(s: string): nat
    requires forall i :: 0 <= i < |s| ==> IsDigit(s[i])
  {
    if s == [] then 0
    else
      var last := s[|s| - 1];
      assert IsDigit(last);
      10 * DecimalValue(s[..|s| - 1]) + (last as int - '0' as int)
  }

  lemma {:induction false} DecimalReads(n: nat)
    ensures forall i :: 0 <= i < |Decimal(n)| ==> IsDigit(Decimal(n)[i])
    ensures Decimal(n) != []
    ensures DecimalValue(Decimal(n)) == n
  {
    if n >= 10 {
      DecimalReads(n / 10);
      assert Decimal(n)[..|Decimal(n)| - 1] == Decimal(n / 10);
    } else {
      assert DecimalValue([Digit(n)][..0]) == 0;
    }
  }

  lemma DecimalInjective(m: nat, n: nat)
    requires Decimal(m) == Decimal(n)
    ensures m == n
  {
    DecimalReads(m);
    DecimalReads(n);
  }

  function DottedQuad(q: Quad): string {
    Decimal(q.a) + ['.'] + (Decimal(q.b) + ['.'] + (Decimal(q.c) + ['.'] + Decimal(q.d)))
  }

  /** fmt.Sprintf("%s:%d", host, port) */
  function HostPort(host: string, p: port): string {
    host + [':'] + Decimal(p)
  }

  function QuadPort(q: Quad, p: port): string {
    HostPort(DottedQuad(q), p)
  }

  /** net.JoinHostPort(ip.String(), port), for an address that has an IP. */
  function JoinHostPort(addr: TcpAddr): string
    requires addr.ip != NoIP
  {
    match addr.ip
    case V4(q) => QuadPort(q, addr.port)
    case V6(text, _) => ['['] + text + [']'] + [':'] + Decimal(addr.port)
  }

  /** The configuration's test that a backend names a usable machine. */
  predicate Concrete(addr: TcpAddr) {
    match addr.ip
    case NoIP => false
    case V4(q) => q != Quad(0, 0, 0, 0)
    case V6(_, unspecified) => !unspecified
  }

  lemma DottedQuadInjective(p: Quad, q: Quad)
    requires DottedQuad(p) == DottedQuad(q)
    ensures p == q
  {
    DecimalReads(p.a); DecimalReads(p.b); DecimalReads(p.c);
    DecimalReads(q.a); DecimalReads(q.b); DecimalReads(q.c);
    var p2 := Decimal(p.c) + ['.'] + Decimal(p.d);
    var q2 := Decimal(q.c) + ['.'] + Decimal(q.d);
    var p1 := Decimal(p.b) + ['.'] + p2;
    var q1 := Decimal(q.b) + ['.'] + q2;
    UniqueFirst(Decimal(p.a), Decimal(q.a), '.', p1, q1);
    UniqueFirst(Decimal(p.b), Decimal(q.b), '.', p2, q2);
    UniqueFirst(Decimal(p.c), Decimal(q.c), '.', Decimal(p.d), Decimal(q.d));
    DecimalInjective(p.a, q.a);
    DecimalInjective(p.b, q.b);
    DecimalInjective(p.c, q.c);
    DecimalInjective(p.d, q.d);
  }

  /** The port digits after the last colon are unambiguous, whatever the host text is. */
  lemma HostPortInjective(h: string, p: port, g: string, q: port)
    requires HostPort(h, p) == HostPort(g, q)
    ensures h == g && p == q
  {
    DecimalReads(p);
    DecimalReads(q);
    UniqueLast(h, g, ':', Decimal(p), Decimal(q));
    DecimalInjective(p, q);
  }

  /** An "a.b.c.d:p" text names one address and port. */
  lemma QuadPortInjective(x: Quad, p: port, y: Quad, q: port)
    requires QuadPort(x, p) == QuadPort(y, q)
    ensures x == y && p == q
  {
    HostPortInjective(DottedQuad(x), p, DottedQuad(y), q);
    DottedQuadInjective(x, y);
  }

  // ---------------------------------------------------------------- the texts, read back

  /** The decimal numeral of n: digits that are worth n, without a leading zero. */
  ghost predicate Numeral(s: string, n: nat) {
    && s != [] && (forall i :: 0 <= i < |s| ==> '0' <= s[i] <= '9')
    && DecimalValue(s) == n && (s[0] == '0' ==> |s| == 1)
  }

  lemma {:induction false} DecimalIsNumeral(n: nat)
    ensures Numeral(Decimal(n), n)
  {
    DecimalReads(n);
    if n >= 10 {
      DecimalIsNumeral(n / 10);
      assert DecimalValue(['0']) == 0 by {
        assert ['0'][..0] == [];
      }
      assert Decimal(n)[0] == Decimal(n / 10)[0];
    }
  }

  /** What the text of an IPv4 address is: its four bytes as numerals, from first to last, with dots between. */
  lemma DottedQuadReads(q: Quad) returns (a: string, b: string, c: string, d: string)
    ensures Numeral(a, q.a) && Numeral(b, q.b) && Numeral(c, q.c) && Numeral(d, q.d)
    ensures DottedQuad(q) == a + "." + b + "." + c + "." + d
  {
    a, b, c, d := Decimal(q.a), Decimal(q.b), Decimal(q.c), Decimal(q.d);
    DecimalIsNumeral(q.a);
    DecimalIsNumeral(q.b);
    DecimalIsNumeral(q.c);
    DecimalIsNumeral(q.d);
    assert DottedQuad(q) == a + "." + b + "." + c + "." + d;
  }

  /** An address with its port: the host, a colon and a numeral; an IPv6 host stands in brackets. */
  lemma AddressReads(host: string, q: Quad, text: string, unspecified: bool, p: port) returns (n: string)
    ensures Numeral(n, p)
    ensures HostPort(host, p) == host + ":" + n
    ensures QuadPort(q, p) == DottedQuad(q) + ":" + n
    ensures JoinHostPort(TcpAddr(V4(q), p)) == DottedQuad(q) + ":" + n
    ensures JoinHostPort(TcpAddr(V6(text, unspecified), p)) == "[" + text + "]:" + n
  {
    n := Decimal(p);
    DecimalIsNumeral(p);
    assert "[" + text + "]" + ":" + n == "[" + text + "]:" + n;
  }

  predicate AddressChar(c: char) {
    IsDigit(c) || c == '.' || c == ':'
  }

  /** An IPv4 "ip:port" text is its own host normal form and survives trimming. */
  lemma QuadPortChars(q: Quad, p: port)
    ensures forall i :: 0 <= i < |QuadPort(q, p)| ==> AddressChar(QuadPort(q, p)[i])
    ensures QuadPort(q, p) != [] && IsDigit(QuadPort(q, p)[0])
    ensures IsDigit(QuadPort(q, p)[|QuadPort(q, p)| - 1])
  {
    DecimalReads(q.a); DecimalReads(q.b); DecimalReads(q.c); DecimalReads(q.d);
    DecimalReads(p);
  }

  lemma QuadPortTrimmed(q: Quad, p: port)
    ensures TrimSpace(QuadPort(q, p)) == QuadPort(q, p)
  {
    QuadPortChars(q, p);
    TrimSpaceResult(QuadPort(q, p));
  }

  /** Address resolution is left to the caller; on IPv4 literals it must return the literal. */
  type Resolver = string -> Option<TcpAddr>

  ghost predicate ResolvesLiterals(resolve: Resolver) {
    forall q: Quad, p: port :: resolve(QuadPort(q, p)) == Some(TcpAddr(V4(q), p))
  }

  /** A resolver that knows IPv4 literals and nothing else. */
  ghost function LiteralsOnly(s: string): Option<TcpAddr> {
    if q: Quad, p: port :| s == QuadPort(q, p) then Some(TcpAddr(V4(q), p)) else None
  }

  /** Literals can be resolved consistently, because no text stands for two addresses. */
  lemma LiteralsResolve()
    ensures ResolvesLiterals(s => LiteralsOnly(s))
  {
    forall q: Quad, p: port
      ensures LiteralsOnly(QuadPort(q, p)) == Some(TcpAddr(V4(q), p))
    {
      var x: Quad, y: port :| QuadPort(q, p) == QuadPort(x, y)
          && LiteralsOnly(QuadPort(q, p)) == Some(TcpAddr(V4(x), y));
      QuadPortInjective(q, p, x, y);
    }
  }
}
