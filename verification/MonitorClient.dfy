/** The management client (clientrequest.c, clientresponse.c) and the replies it decodes (monitor.c). */
module MonitorClient {
  import opened Bytes
  import opened Buffers
  import opened Monitor
  import Accounts

  const BASE := 21

  // ---------------------------------------------------------------- requests

  method Memcpy(buf: array<byte>, at: nat, s: seq<byte>)
    requires at + |s| <= buf.Length
    modifies buf
    ensures buf[at..at + |s|] == s
    ensures forall k :: 0 <= k < buf.Length && !(at <= k < at + |s|) ==> buf[k] == old(buf[k])
  {
    for i := 0 to |s|
      invariant buf[at..at + i] == s[..i]
      invariant forall k :: 0 <= k < buf.Length && !(at <= k < at + i) ==> buf[k] == old(buf[k])
    {
      buf[at + i] := s[i];
      assert buf[at..at + i + 1] == buf[at..at + i] + [s[i]];
    }
  }

  /** serialize_config_data */
  method SerializeData(r: Request, buf: array<byte>)
    requires !r.Ask? && BASE + |r.Payload()| <= buf.Length
    modifies buf
    ensures buf[BASE..BASE + |r.Payload()|] == r.Payload()
    ensures forall k :: 0 <= k < BASE ==> buf[k] == old(buf[k])
  {
    match r {
      case Toggle(value) => buf[BASE] := value;
      case AddUser(user, pass) => SerializePair(user, pass, buf);
      case AddAdmin(user, token) => SerializePair(user, token, buf);
      case DeleteUser(user) => Memcpy(buf, BASE, user);
      case DeleteAdmin(user) => Memcpy(buf, BASE, user);
    }
  }

  method SerializePair(user: seq<byte>, secret: seq<byte>, buf: array<byte>)
    requires BASE + |user| + 1 + |secret| <= buf.Length
    modifies buf
    ensures buf[BASE..BASE + |user| + 1 + |secret|] == user + [0] + secret
    ensures forall k :: 0 <= k < BASE ==> buf[k] == old(buf[k])
  {
    Memcpy(buf, BASE, user);
    assert buf[BASE..BASE + |user|] == user;
    label L:
    buf[BASE + |user|] := 0;
    Memcpy(buf, BASE + |user| + 1, secret);
    assert buf[BASE..BASE + |user|] == old@L(buf[BASE..BASE + |user|]);
    var n := BASE + |user|;
    assert buf[BASE..n + 1 + |secret|] == buf[BASE..n] + [buf[n]] + buf[n + 1..n + 1 + |secret|];
  }

  /** The fixed part, in the order in which the fields are stored. */
  method SerializeHead(r: Request, token: seq<byte>, buf: array<byte>)
    requires |token| == TOKEN_SIZE && |r.Payload()| < 0x1_0000 && BASE <= buf.Length
    modifies buf
    ensures buf[..BASE] == [1] + token + [r.Verb(), r.Kind(), |r.Payload()| / 256, |r.Payload()| % 256]
  {
    var dlen := |r.Payload()|;
    buf[0] := 1;
    Memcpy(buf, 1, token);
    assert buf[1..17] == token;
    label L:
    buf[17] := r.Verb();
    Memcpy(buf, 19, [dlen / 256, dlen % 256]);
    buf[18] := r.Kind();
    assert buf[1..17] == old@L(buf[1..17]);
    assert buf[19] == buf[19..21][0] && buf[20] == buf[19..21][1];
    assert buf[..BASE] == [buf[0]] + buf[1..17] + [buf[17], buf[18], buf[19], buf[20]];
  }

  /** serialize_request fills the first 21 + dlen bytes of the send buffer with the encoding. */
  method SerializeRequest(r: Request, token: seq<byte>, buf: array<byte>)
    requires |token| == TOKEN_SIZE && |r.Payload()| < 0x1_0000 && BASE + |r.Payload()| <= buf.Length
    modifies buf
    ensures buf[..BASE + |r.Payload()|] == Encode(token, r)
  {
    SerializeHead(r, token, buf);
    label L:
    if r.Ask? {
      Memcpy(buf, BASE, [0]);
    } else {
      SerializeData(r, buf);
    }
    assert buf[..BASE] == old@L(buf[..BASE]);
    assert buf[..BASE + |r.Payload()|] == buf[..BASE] + buf[BASE..BASE + |r.Payload()|];
  }

  // ---------------------------------------------------------------- replies

  /** The data of a reply: a NULL pointer, raw bytes, or a counter. */
  datatype Body = Null | Raw(bs: seq<byte>) | Number(n: nat)

  function Be32(n: nat): (r: seq<byte>)
    requires n < U32
    ensures |r| == 4
  {
    [n / 0x100_0000, n / 0x1_0000 % 256, n / 256 % 256, n % 256]
  }

  function Word32(b: seq<byte>): nat
    requires |b| == 4
  {
    0x100_0000 * (b[0] as int) + 0x1_0000 * (b[1] as int) + 256 * (b[2] as int) + b[3]
  }

  /** htonl and ntohl: every 32-bit counter survives. */
  lemma CounterRoundTrip(n: nat)
    requires n < U32
    ensures Word32(Be32(n)) == n
  {
    var a, b, c := n / 0x100_0000, n / 0x1_0000, n / 256;
    assert b == 256 * a + b % 256 && c == 256 * b + c % 256 && n == 256 * c + n % 256;
  }

  /** What the arguments of monitor_marshall satisfy at each of its calls. */
  ghost predicate Fits(dlen: nat, body: Body) {
    && dlen < 0x1_0000
    && match body
       case Null => dlen == 1
       case Raw(bs) => dlen == |bs|
       case Number(n) => dlen == 4 && n < U32
  }

  function Payload(body: Body): seq<byte>
    requires body.Number? ==> body.n < U32
  {
    match body
    case Null => [0]
    case Raw(bs) => bs
    case Number(n) => Be32(n)
  }

  function ReplyBytes(status: byte, dlen: nat, body: Body): seq<byte>
    requires Fits(dlen, body)
  {
    [status, dlen / 256, dlen % 256] + Payload(body)
  }

  /** Several calls of buffer_write with room for all of them. */
  method WriteAll(b: Buffer, bs: seq<byte>)
    requires b.Valid() && |bs| <= b.View().Space()
    modifies b, b.data
    ensures b.Valid() && b.View() == old(b.View()).Put(bs)
  {
    for i := 0 to |bs|
      invariant b.Valid() && b.View() == old(b.View()).Put(bs[..i])
    {
      b.Write(bs[i]);
      assert bs[..i] + [bs[i]] == bs[..i + 1];
      assert old(b.View()).Put(bs[..i]).Put([bs[i]]) == old(b.View()).Put(bs[..i + 1]);
    }
    assert bs[..|bs|] == bs;
  }

  /** monitor_marshall: the size, or -1 when the reply does not fit. */
  method Marshall(b: Buffer, status: byte, dlen: nat, body: Body) returns (n: int)
    requires b.Valid() && Fits(dlen, body)
    modifies b, b.data
    ensures b.Valid()
    ensures if old(b.View()).Space() < dlen + 3 then n == -1 && b.View() == old(b.View())
            else n == dlen + 3 && b.View() == old(b.View()).Put(ReplyBytes(status, dlen, body))
  {
    if b.limit - b.write < dlen + 3 {
      return -1;
    }
    var head := [status, dlen / 256, dlen % 256];
    WriteAll(b, head);
    WriteAll(b, Payload(body));
    assert old(b.View()).Put(head).Put(Payload(body)) == old(b.View()).Put(head + Payload(body));
    return dlen + 3;
  }

  /** The statuses of monitor_error_marshall. */
  function ErrorStatus(st: State): byte {
    match st
    case BadVersion => 1
    case BadMethod => 2
    case BadTarget => 3
    case BadData => 4
    case _ => 6
  }

  method ErrorMarshall(b: Buffer, st: State) returns (n: int)
    requires b.Valid()
    modifies b, b.data
    ensures b.Valid()
    ensures if old(b.View()).Space() < 4 then n == -1 && b.View() == old(b.View())
            else n == 4 && b.View() == old(b.View()).Put(ReplyBytes(ErrorStatus(st), 1, Null))
  {
    if b.limit - b.write < 4 {
      return -1;
    }
    WriteAll(b, [ErrorStatus(st), 0, 1, 0]);
    return 4;
  }

  // ---------------------------------------------------------------- decoding

  /** handle_get_ok_status on a counter. */
  method ReadCounter(buf: array<byte>) returns (n: nat)
    requires buf.Length >= 7
    ensures n == Word32(buf[3..7])
  {
    var digits: seq<byte> := [];
    for k := 0 to 4
      invariant digits == buf[3..3 + k]
    {
      digits := digits + [buf[3 + k]];
    }
    return Word32(digits);
  }

  /** The pieces between NULs. */
  function Split(s: seq<byte>): (r: seq<seq<byte>>)
    ensures |r| >= 1
  {
    if s == [] then [[]]
    else if s[0] == 0 then [[]] + Split(s[1..])
    else var r := Split(s[1..]); [[s[0]] + r[0]] + r[1..]
  }

  /** Every name on a line of its own. */
  function Lines(names: seq<seq<byte>>): seq<byte> {
    if names == [] then [] else names[0] + [10] + Lines(names[1..])
  }

  /** The listing with newlines for NULs. */
  function Shown(s: seq<byte>): seq<byte> {
    if s == [] then [] else [if s[0] == 0 then 10 else s[0]] + Shown(s[1..])
  }

  lemma {:induction false} ShownExtends(s: seq<byte>, c: byte)
    ensures Shown(s + [c]) == Shown(s) + [if c == 0 then 10 else c]
    decreases |s|
  {
    if s == [] {
      assert s + [c] == [c] && [c][1..] == [];
    } else {
      assert (s + [c])[1..] == s[1..] + [c];
      ShownExtends(s[1..], c);
    }
  }

  lemma LinesGrow(c: byte, r: seq<seq<byte>>)
    requires r != []
    ensures Lines([[c] + r[0]] + r[1..]) == [c] + Lines(r)
  {
    var tail := Lines(r[1..]);
    assert ([[c] + r[0]] + r[1..])[1..] == r[1..];
    assert ([c] + r[0]) + [10] + tail == [c] + (r[0] + [10] + tail);
  }

  lemma LinesBlank(r: seq<seq<byte>>)
    ensures Lines([[]] + r) == [10] + Lines(r)
  {
    assert ([[]] + r)[1..] == r;
  }

  lemma {:induction false} ShownIsLines(s: seq<byte>)
    ensures Shown(s) + [10] == Lines(Split(s))
    decreases |s|
  {
    if s == [] {
      assert Split(s)[1..] == [];
    } else {
      ShownIsLines(s[1..]);
      LinesBlank(Split(s[1..]));
      LinesGrow(s[0], Split(s[1..]));
      hide Lines;
    }
  }

  /** handle_get_ok_status on a listing: the bytes it prints. */
  method PrintList(buf: array<byte>) returns (out: seq<byte>)
    requires buf.Length >= 3 && 3 + Word(buf[1], buf[2]) <= buf.Length && 3 + Word(buf[1], buf[2]) < 0x1_0000
    ensures out == Lines(Split(buf[3..3 + Word(buf[1], buf[2])]))
  {
    var dlen := Word(buf[1], buf[2]);
    out := [];
    var k := 3;
    while k < dlen + 3
      invariant 3 <= k <= dlen + 3
      invariant out == Shown(buf[3..k])
    {
      ShownExtends(buf[3..k], buf[k]);
      assert buf[3..k] + [buf[k]] == buf[3..k + 1];
      out := out + [if buf[k] == 0 then 10 else buf[k]];
      k := k + 1;
    }
    ShownIsLines(buf[3..k]);
    out := out + [10];
  }

  lemma {:induction false} SplitName(a: seq<byte>, t: seq<byte>)
    requires NulFree(a)
    ensures Split(a + [0] + t) == [a] + Split(t)
    decreases |a|
  {
    var s := a + [0] + t;
    if a == [] {
      assert s[1..] == t;
    } else {
      assert s[1..] == a[1..] + [0] + t;
      SplitName(a[1..], t);
      assert a == [a[0]] + a[1..];
    }
  }

  lemma {:induction false} SplitAlone(a: seq<byte>)
    requires NulFree(a)
    ensures Split(a) == [a]
    decreases |a|
  {
    if a != [] {
      SplitAlone(a[1..]);
      assert a == [a[0]] + a[1..];
    }
  }

  ghost predicate AllNulFree(names: seq<seq<byte>>) {
    forall i :: 0 <= i < |names| ==> NulFree(names[i])
  }

  /** Splitting a listing gives back the names, in order. */
  lemma {:induction false} ListingSplits(names: seq<seq<byte>>)
    requires names != [] && AllNulFree(names)
    ensures Split(Accounts.Listing(names)) == names
    decreases |names|
  {
    if |names| == 1 {
      SplitAlone(names[0]);
    } else {
      ListingSplits(names[1..]);
      SplitName(names[0], Accounts.Listing(names[1..]));
      assert names == [names[0]] + names[1..];
    }
  }

  /**
   * A whole list reply, in the buffer of the client, splits into the names of the table; that of an
   * empty table is one empty piece.
   */
  lemma ListReplyRoundTrip(names: seq<seq<byte>>, status: byte)
    requires AllNulFree(names) && |Accounts.Listing(names)| < 0x1_0000
    ensures var l := Accounts.Listing(names);
            var reply := ReplyBytes(status, |l|, Raw(l));
            && |reply| == 3 + |l| && Word(reply[1], reply[2]) == |l|
            && Split(reply[3..3 + |l|]) == if names == [] then [[]] else names
  {
    if names != [] {
      ListingSplits(names);
    }
    var l := Accounts.Listing(names);
    assert ReplyBytes(status, |l|, Raw(l))[3..3 + |l|] == l;
  }

  /** A whole counter reply is read as the counter. */
  lemma CounterReplyRoundTrip(n: nat, status: byte)
    requires n < U32
    ensures var reply := ReplyBytes(status, 4, Number(n)); |reply| == 7 && Word32(reply[3..7]) == n
  {
    CounterRoundTrip(n);
    assert ReplyBytes(status, 4, Number(n))[3..7] == Be32(n);
  }
}
