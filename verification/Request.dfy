/** Requests and replies (sections 4 and 6 of RFC 1928): the parser and the reply of request.c. */
module Request {
  import opened Bytes
  import opened Buffers
  import opened Incremental

  const CONNECT: byte := 1
  const IPV4: byte := 1
  const DOMAIN: byte := 3
  const IPV6: byte := 4
  const FQDN := 255

  /** How many bytes the address type takes in front of the address, the low one first. */
  const TAG := 4

  const SUCCEEDED: byte := 0
  const GENERAL_FAILURE: byte := 1
  const NETWORK_UNREACHABLE: byte := 3
  const HOST_UNREACHABLE: byte := 4
  const CONNECTION_REFUSED: byte := 5
  const TTL_EXPIRED: byte := 6
  const COMMAND_NOT_SUPPORTED: byte := 7
  const ADDRESS_NOT_SUPPORTED: byte := 8

  datatype State =
    | Version | Cmd | Rsv | Atyp | FqdnLen | DstAddr | DstPort | Done | UnsupportedVersion | UnsupportedAtyp

  /** Parser fields and the request they fill; `addr` is the address part of the zeroed union. */
  datatype Req = Req(state: State, n: byte, i: byte, cmd: byte, atyp: byte, addr: seq<byte>, port: seq<byte>) {

    ghost predicate Valid() {
      && |addr| == FQDN && |port| == 2
      && (state == DstAddr || state == DstPort ==> i == 0 || i < n)
      && (state == DstPort ==> n == 2)
      && (state == FqdnLen ==> atyp == DOMAIN)
      && (state == DstAddr ==> atyp == IPV4 || atyp == IPV6 || atyp == DOMAIN)
    }
  }

  const INIT := Req(Version, 0, 0, 0, 0, Zeros(FQDN), [0, 0])

  function Next(p: Req, b: byte): Req {
    match p.state
    case Version => p.(state := if b == 5 then Cmd else UnsupportedVersion)
    case Cmd => p.(cmd := b, state := Rsv)
    case Rsv => p.(state := Atyp)
    case Atyp =>
      var q := p.(atyp := b);
      if b == IPV4 then q.(i := 0, n := 4, addr := Zeros(FQDN), state := DstAddr)
      else if b == IPV6 then q.(i := 0, n := 16, addr := Zeros(FQDN), state := DstAddr)
      else q.(state := if b == DOMAIN then FqdnLen else UnsupportedAtyp)
    case FqdnLen => p.(i := 0, n := b, addr := Store(p.addr, b - 1, 0), state := DstAddr)
    case DstAddr =>
      var i: byte := (p.i + 1) % 256;
      var q := p.(addr := Store(p.addr, p.i, b), i := i);
      if i >= p.n then q.(i := 0, n := 2, port := [0, 0], state := DstPort) else q
    case DstPort =>
      var i: byte := (p.i + 1) % 256;
      p.(port := Store(p.port, p.i, b), i := i, state := if i >= p.n then Done else DstPort)
    case Done => p
    case UnsupportedVersion => p
    case UnsupportedAtyp => p
  }

  function Feeder(): (Req, byte) -> Req {
    (p: Req, b: byte) => Next(p, b)
  }

  predicate IsDone(p: Req) {
    p.state == Done || Errored(p)
  }

  predicate Errored(p: Req) {
    p.state == UnsupportedVersion || p.state == UnsupportedAtyp
  }

  function Parsed(p: Req, bs: seq<byte>): (r: Parse<Req>)
    ensures r.eaten <= |bs| && (!IsDone(r.st) ==> r.eaten == |bs|)
  {
    Consume(Feeder(), IsDone, p, bs)
  }

  function Reply(status: byte): (r: seq<byte>)
    ensures |r| == 10
  {
    [5, status, 0, IPV4, 0, 0, 0, 0, 0, 0]
  }

  /** The errno values the server tells apart; `NoError` is 0. */
  datatype Errno = NoError | ECONNREFUSED | EHOSTUNREACH | ENETUNREACH | ETIMEDOUT | OtherErrno

  /** What errno holds after a call that failed. */
  type Failure = e: Errno | e != NoError witness ECONNREFUSED

  function ErrnoToSocks(e: Errno): byte {
    match e
    case NoError => SUCCEEDED
    case ECONNREFUSED => CONNECTION_REFUSED
    case EHOSTUNREACH => HOST_UNREACHABLE
    case ENETUNREACH => NETWORK_UNREACHABLE
    case ETIMEDOUT => TTL_EXPIRED
    case OtherErrno => GENERAL_FAILURE
  }

  class RequestParser {
    var state: State
    var n: byte
    var i: byte
    var cmd: byte
    const memory: array<byte>  // dest_addr_type and, next to it, the address
    const port: array<byte>

    function View(): Req
      reads this, memory, port
      requires memory.Length == TAG + FQDN
    {
      Req(state, n, i, cmd, memory[0], memory[TAG..], port[..])
    }

    ghost predicate Valid()
      reads this, memory, port
    {
      memory.Length == TAG + FQDN && memory[1..TAG] == [0, 0, 0] && View().Valid() && memory != port
    }

    constructor ()
      ensures Valid() && View() == INIT && fresh(memory) && fresh(port)
    {
      state, n, i, cmd := Version, 0, 0, 0;
      memory, port := new byte[TAG + FQDN](_ => 0), new byte[2](_ => 0);
    }

    /** The parser that stands where `p` says. */
    constructor At(p: Req)
      requires p.Valid()
      ensures Valid() && View() == p && fresh(memory) && fresh(port)
    {
      state, n, i, cmd := p.state, p.n, p.i, p.cmd;
      memory := new byte[TAG + FQDN](k requires 0 <= k < TAG + FQDN =>
        if k == 0 then p.atyp else if k < TAG then 0 else p.addr[k - TAG]);
      port := new byte[2](k requires 0 <= k < 2 => p.port[k]);
    }

    method Feed(b: byte)
      requires Valid()
      modifies this, memory, port
      ensures Valid() && View() == Next(old(View()), b)
    {
      match state {
        case Version =>
          state := if b == 5 then Cmd else UnsupportedVersion;
        case Cmd =>
          cmd := b;
          state := Rsv;
        case Rsv =>
          state := State.Atyp;
        case Atyp =>
          AddressType(b);
        case FqdnLen =>
          FqdnLength(b);
        case DstAddr =>
          Address(b);
        case DstPort =>
          port[i] := b;
          i := i + 1;
          if i >= n {
            state := Done;
          }
        case Done =>
        case UnsupportedVersion =>
        case UnsupportedAtyp =>
      }
    }

    /** atyp; the enumeration takes four bytes. */
    method AddressType(b: byte)
      requires Valid() && state == State.Atyp
      modifies this, memory
      ensures Valid() && View() == Next(old(View()), b)
    {
      memory[0], memory[1], memory[2], memory[3] := b, 0, 0, 0;
      if b == IPV4 || b == IPV6 {
        i, n := 0, if b == IPV4 then 4 else 16;
        forall k | TAG <= k < memory.Length {
          memory[k] := 0;
        }
        state := DstAddr;
      } else {
        state := if b == DOMAIN then FqdnLen else UnsupportedAtyp;
      }
    }

    /**
     * dstaddr_fqdn. For a length of zero the store falls in front of the address: on the last byte of
     * the address type, which is zero already where the low byte comes first.
     */
    method FqdnLength(b: byte)
      requires Valid() && state == FqdnLen
      modifies this, memory
      ensures Valid() && View() == Next(old(View()), b)
    {
      i, n := 0, b;
      memory[TAG + n - 1] := 0;
      state := DstAddr;
    }

    /** dstaddr */
    method Address(b: byte)
      requires Valid() && state == DstAddr
      modifies this, memory, port
      ensures Valid() && View() == Next(old(View()), b)
    {
      memory[TAG + i] := b;
      i := i + 1;
      if i >= n {
        i, n := 0, 2;
        port[0], port[1] := 0, 0;
        state := DstPort;
      }
    }

    /** One turn of the loop of request_consume. */
    method Turn(b: Buffer)
      requires Valid() && b.Valid() && b.data != memory && b.data != port && b.CanRead()
      modifies this, memory, port, b, b.data
      ensures Valid() && b.Valid()
      ensures View() == Feeder()(old(View()), old(b.View()).bytes[0]) && b.View() == old(b.View()).Take(1)
    {
      var c := b.Read();
      Feed(c);
    }

    method Consume(b: Buffer) returns (errored: bool)
      requires Valid() && b.Valid() && b.data != memory && b.data != port
      modifies this, memory, port, b, b.data
      ensures Valid() && b.Valid() && errored == (Errored(View()) && old(b.View()).bytes != [])
      ensures var p := Parsed(old(View()), old(b.View()).bytes);
              View() == p.st && b.View() == old(b.View()).Take(p.eaten)
    {
      ghost var q0, s0, k := b.View(), View(), 0;
      errored := false;
      while b.CanRead()
        invariant Valid() && b.Valid() && k <= |q0.bytes| && b.View() == q0.Take(k)
        invariant !errored
        invariant Parsed(s0, q0.bytes) == var p := Parsed(View(), q0.bytes[k..]); Parse(p.st, k + p.eaten)
        invariant k > 0 ==> !IsDone(View())
        decreases |q0.bytes| - k
      {
        assert q0.bytes[k..][1..] == q0.bytes[k + 1..];
        Turn(b);
        k := k + 1;
        if state == Done || state == UnsupportedVersion || state == UnsupportedAtyp {
          errored := state != Done;
          return;
        }
      }
    }
  }

  /** request_marshall: 10, or -1 when the reply does not fit. */
  method Marshall(b: Buffer, status: byte) returns (n: int)
    requires b.Valid()
    modifies b, b.data
    ensures b.Valid()
    ensures if old(b.View()).Space() < 10 then n == -1 && b.View() == old(b.View())
            else n == 10 && b.View() == old(b.View()).Put(Reply(status))
  {
    if b.limit - b.write < 10 {
      return -1;
    }
    b.Fill(Reply(status));
    b.WriteAdv(10);
    return 10;
  }

  /** The destinations of RFC 1928: an address in four or sixteen octets, or a name of 1 to 255. */
  datatype Dest = V4(ip: seq<byte>) | V6(ip: seq<byte>) | Name(ip: seq<byte>) {

    ghost predicate Valid() {
      match this
      case V4(a) => |a| == 4
      case V6(a) => |a| == 16
      case Name(a) => 1 <= |a| <= 255
    }

    function Type(): byte {
      match this
      case V4(_) => IPV4
      case V6(_) => IPV6
      case Name(_) => DOMAIN
    }
  }

  ghost function Encode(cmd: byte, rsv: byte, d: Dest, port: seq<byte>): seq<byte>
    requires d.Valid()
  {
    [5, cmd, rsv, d.Type()] + (if d.Name? then [|d.ip|] else []) + d.ip + port
  }

  lemma AddrStep(p: Req, a: seq<byte>)
    requires |a| <= FQDN && p.state == DstAddr && p.n == |a| && p.i < |a| && p.addr == Pad(a[..p.i], FQDN)
    ensures !IsDone(Next(p, a[p.i]))
    ensures Next(p, a[p.i]) ==
            if p.i + 1 < |a| then p.(i := p.i + 1, addr := Pad(a[..p.i + 1], FQDN))
            else p.(state := DstPort, i := 0, n := 2, addr := Pad(a, FQDN), port := [0, 0])
  {
    PadExtends(a[..p.i], FQDN, a[p.i]);
    assert a[..p.i] + [a[p.i]] == a[..p.i + 1] && (p.i + 1 == |a| ==> a[..p.i + 1] == a);
  }

  lemma {:induction false} AddrFills(p: Req, a: seq<byte>, rest: seq<byte>)
    requires |a| <= FQDN && p.state == DstAddr && p.n == |a| && p.i < |a| && p.addr == Pad(a[..p.i], FQDN)
    ensures var p' := p.(state := DstPort, i := 0, n := 2, addr := Pad(a, FQDN), port := [0, 0]);
            var t := Parsed(p', rest);
            Parsed(p, a[p.i..] + rest) == Parse(t.st, |a| - p.i + t.eaten)
    decreases |a| - p.i
  {
    hide Next;
    var p1 := Next(p, a[p.i]);
    AddrStep(p, a);
    assert a[p.i..] + rest == [a[p.i]] + (a[p.i + 1..] + rest);
    HeaderStep(p, a[p.i], a[p.i + 1..] + rest);
    if p.i + 1 < |a| {
      AddrFills(p1, a, rest);
    } else {
      assert a[p.i + 1..] + rest == rest;
    }
  }

  lemma PortFills(p: Req, port: seq<byte>, rest: seq<byte>)
    requires |port| == 2 && p.state == DstPort && p.n == 2 && p.i == 0 && p.port == [0, 0]
    ensures Parsed(p, port + rest) == Parse(p.(state := Done, i := 2, port := port), 2)
  {
    var bs := port + rest;
    var p1 := Next(p, port[0]);
    var p2 := Next(p1, port[1]);
    assert Feeder()(p, bs[0]) == p1 && Feeder()(p1, bs[1]) == p2;
    assert p2.port == port;
    assert bs[1..][0] == bs[1];
    assert Parsed(p1, bs[1..]) == Parse(p2, 1);
  }

  /** The four leading octets, one at a time. */
  lemma HeaderStep(p: Req, b: byte, rest: seq<byte>)
    requires !IsDone(Next(p, b))
    ensures Parsed(p, [b] + rest) == var t := Parsed(Next(p, b), rest); Parse(t.st, 1 + t.eaten)
  {
    var bs := [b] + rest;
    assert Feeder()(p, bs[0]) == Next(p, b);
    assert bs[1..] == rest;
  }

  lemma HeaderParsed(cmd: byte, rsv: byte, atyp: byte, body: seq<byte>)
    requires atyp == IPV4 || atyp == IPV6 || atyp == DOMAIN
    ensures var n := if atyp == IPV4 then 4 else if atyp == IPV6 then 16 else 0;
            var p := Req(if atyp == DOMAIN then FqdnLen else DstAddr, n, 0, cmd, atyp, Zeros(FQDN), [0, 0]);
            var t := Parsed(p, body);
            Parsed(INIT, [5, cmd, rsv, atyp] + body) == Parse(t.st, 4 + t.eaten)
  {
    assert [5, cmd, rsv, atyp] + body == [5] + ([cmd] + ([rsv] + ([atyp] + body)));
    HeaderStep(INIT, 5, [cmd] + ([rsv] + ([atyp] + body)));
    HeaderStep(Next(INIT, 5), cmd, [rsv] + ([atyp] + body));
    HeaderStep(INIT.(state := Rsv, cmd := cmd), rsv, [atyp] + body);
    HeaderStep(INIT.(state := Atyp, cmd := cmd), atyp, body);
  }

  /** From the first octet of the address on. */
  lemma AddressParsed(p: Req, a: seq<byte>, port: seq<byte>, rest: seq<byte>)
    requires 1 <= |a| <= FQDN && |port| == 2
    requires p.state == DstAddr && p.n == |a| && p.i == 0 && p.addr == Zeros(FQDN)
    ensures Parsed(p, a + (port + rest)) ==
            Parse(p.(state := Done, n := 2, i := 2, addr := Pad(a, FQDN), port := port), |a| + 2)
  {
    assert Pad([], FQDN) == Zeros(FQDN);
    assert a[p.i..] == a && a[..p.i] == [];
    AddrFills(p, a, port + rest);
    PortFills(p.(state := DstPort, i := 0, n := 2, addr := Pad(a, FQDN), port := [0, 0]), port, rest);
  }

  /** Every request of RFC 1928 is recovered, and what follows it is left unread. */
  lemma RequestRoundTrip(cmd: byte, rsv: byte, d: Dest, port: seq<byte>, rest: seq<byte>)
    requires d.Valid() && |port| == 2
    ensures Parsed(INIT, Encode(cmd, rsv, d, port) + rest) ==
            Parse(Req(Done, 2, 2, cmd, d.Type(), Pad(d.ip, FQDN), port), |Encode(cmd, rsv, d, port)|)
  {
    var tail := d.ip + (port + rest);
    var body := if d.Name? then [|d.ip|] + tail else tail;
    assert Encode(cmd, rsv, d, port) + rest == [5, cmd, rsv, d.Type()] + body;
    HeaderParsed(cmd, rsv, d.Type(), body);
    var n := if d.V4? then 4 else if d.V6? then 16 else 0;
    var p := Req(if d.Name? then FqdnLen else DstAddr, n, 0, cmd, d.Type(), Zeros(FQDN), [0, 0]);
    if d.Name? {
      HeaderStep(p, |d.ip|, tail);
      assert Next(p, |d.ip|).addr == Zeros(FQDN);
      AddressParsed(Next(p, |d.ip|), d.ip, port, rest);
    } else {
      AddressParsed(p, d.ip, port, rest);
    }
  }
}
