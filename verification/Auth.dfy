/** Username/password subnegotiation (section 2 of RFC 1929): the parser and the reply of auth.c. */
module Auth {
  import opened Bytes
  import opened Buffers
  import opened Incremental

  const SUCCEEDED: byte := 0
  const FAILURE: byte := 1
  const FIELD := 255

  datatype State = Version | ULen | UName | PLen | Passwd | Done | UnsupportedVersion

  /** Parser fields and the two zeroed arrays it fills. */
  datatype Credentials = Credentials(state: State, len: byte, i: byte, uname: seq<byte>, passwd: seq<byte>) {

    ghost predicate Valid() {
      && |uname| == FIELD && |passwd| == FIELD
      && (state == UName || state == Passwd ==> i < FIELD && (i == 0 || i < len))
    }
  }

  const INIT := Credentials(Version, 0, 0, Zeros(FIELD), Zeros(FIELD))

  function Next(p: Credentials, b: byte): Credentials {
    match p.state
    case Version => p.(state := if b == 1 then ULen else UnsupportedVersion)
    case ULen => p.(state := UName, i := 0, len := b)
    case UName =>
      var i: byte := (p.i + 1) % 256;
      p.(uname := Store(p.uname, p.i, b), i := i, state := if i >= p.len then PLen else UName)
    case PLen => p.(state := Passwd, i := 0, len := b)
    case Passwd =>
      var i: byte := (p.i + 1) % 256;
      p.(passwd := Store(p.passwd, p.i, b), i := i, state := if i >= p.len then Done else Passwd)
    case Done => p
    case UnsupportedVersion => p
  }

  function Feeder(): (Credentials, byte) -> Credentials {
    (p: Credentials, b: byte) => Next(p, b)
  }

  predicate IsDone(p: Credentials) {
    p.state == Done || p.state == UnsupportedVersion
  }

  predicate Errored(p: Credentials) {
    p.state == UnsupportedVersion
  }

  function Parsed(p: Credentials, bs: seq<byte>): (r: Parse<Credentials>)
    ensures r.eaten <= |bs| && (!IsDone(r.st) ==> r.eaten == |bs|)
  {
    Consume(Feeder(), IsDone, p, bs)
  }

  function Reply(status: byte): seq<byte> {
    [1, status]
  }

  class AuthParser {
    var state: State
    var len: byte
    var i: byte
    const uname: array<byte>
    const passwd: array<byte>

    function View(): Credentials
      reads this, uname, passwd
    {
      Credentials(state, len, i, uname[..], passwd[..])
    }

    ghost predicate Valid()
      reads this, uname, passwd
    {
      View().Valid() && uname != passwd
    }

    constructor ()
      ensures Valid() && View() == INIT && fresh(uname) && fresh(passwd)
    {
      state, len, i := Version, 0, 0;
      uname, passwd := new byte[FIELD](_ => 0), new byte[FIELD](_ => 0);
    }

    /** The parser that stands where `p` says. */
    constructor At(p: Credentials)
      requires p.Valid()
      ensures Valid() && View() == p && fresh(uname) && fresh(passwd)
    {
      state, len, i := p.state, p.len, p.i;
      uname := new byte[FIELD](k requires 0 <= k < FIELD => p.uname[k]);
      passwd := new byte[FIELD](k requires 0 <= k < FIELD => p.passwd[k]);
    }

    method Feed(b: byte)
      requires Valid()
      modifies this, uname, passwd
      ensures Valid() && View() == Next(old(View()), b)
    {
      match state {
        case Version =>
          state := if b == 1 then ULen else UnsupportedVersion;
        case ULen =>
          i, len := 0, b;
          state := UName;
        case UName =>
          uname[i] := b;
          i := i + 1;
          if i >= len {
            state := PLen;
          }
        case PLen =>
          i, len := 0, b;
          state := Passwd;
        case Passwd =>
          passwd[i] := b;
          i := i + 1;
          if i >= len {
            state := Done;
          }
        case Done =>
        case UnsupportedVersion =>
      }
    }

    /** One turn of the loop of auth_consume. */
    method Turn(b: Buffer)
      requires Valid() && b.Valid() && b.data != uname && b.data != passwd && b.CanRead()
      modifies this, uname, passwd, b, b.data
      ensures Valid() && b.Valid()
      ensures View() == Feeder()(old(View()), old(b.View()).bytes[0]) && b.View() == old(b.View()).Take(1)
    {
      var c := b.Read();
      Feed(c);
    }

    method Consume(b: Buffer) returns (errored: bool)
      requires Valid() && b.Valid() && b.data != uname && b.data != passwd
      modifies this, uname, passwd, b, b.data
      ensures Valid() && b.Valid() && errored == (Errored(View()) && old(b.View()).bytes != [])
      ensures var p := Parsed(old(View()), old(b.View()).bytes);
              View() == p.st && b.View() == old(b.View()).Take(p.eaten)
    {
      ghost var q0, s0, k := b.View(), View(), 0;
      errored := false;
      while b.CanRead()
        invariant Valid() && b.Valid() && k <= |q0.bytes| && b.View() == q0.Take(k)
        invariant !errored
        invariant Parsed(s0, q0.bytes) == var p := Parsed(View(), q0.bytes[k..]); Parse(p.st, k + p.eaten)
        invariant k > 0 ==> !IsDone(View())
        decreases |q0.bytes| - k
      {
        assert q0.bytes[k..][1..] == q0.bytes[k + 1..];
        Turn(b);
        k := k + 1;
        if state == Done || state == UnsupportedVersion {
          errored := state == UnsupportedVersion;
          return;
        }
      }
    }
  }

  /** auth_marshall: 2, or -1 when the reply does not fit. */
  method Marshall(b: Buffer, status: byte) returns (n: int)
    requires b.Valid()
    modifies b, b.data
    ensures b.Valid()
    ensures if old(b.View()).Space() < 2 then n == -1 && b.View() == old(b.View())
            else n == 2 && b.View() == old(b.View()).Put(Reply(status))
  {
    if b.limit - b.write < 2 {
      return -1;
    }
    b.Write(1);
    b.Write(status);
    assert old(b.View()).Put([1]).Put([status]) == old(b.View()).Put(Reply(status));
    return 2;
  }

  ghost function Encode(u: seq<byte>, pw: seq<byte>): seq<byte>
    requires |u| <= 255 && |pw| <= 255
  {
    [1, |u|] + u + [|pw|] + pw
  }

  lemma StepParsed(p: Credentials, b: byte, rest: seq<byte>)
    requires !IsDone(Next(p, b))
    ensures Parsed(p, [b] + rest) == var t := Parsed(Next(p, b), rest); Parse(t.st, 1 + t.eaten)
  {
    var bs := [b] + rest;
    assert Feeder()(p, bs[0]) == Next(p, b);
    assert bs[1..] == rest;
  }

  lemma LastParsed(p: Credentials, b: byte, rest: seq<byte>)
    requires IsDone(Next(p, b))
    ensures Parsed(p, [b] + rest) == Parse(Next(p, b), 1)
  {
    var bs := [b] + rest;
    assert Feeder()(p, bs[0]) == Next(p, b);
  }

  /** One more octet of a field. */
  lemma FieldGrows(field: seq<byte>, i: nat)
    requires i < |field| <= FIELD
    ensures Store(Pad(field[..i], FIELD), i, field[i]) == Pad(field[..i + 1], FIELD)
    ensures i + 1 == |field| ==> field[..i + 1] == field
  {
    PadExtends(field[..i], FIELD, field[i]);
    assert field[..i] + [field[i]] == field[..i + 1];
  }

  lemma UNameGrows(p: Credentials, u: seq<byte>)
    requires |u| <= FIELD && p.state == UName && p.len == |u| && p.i < |u| && p.uname == Pad(u[..p.i], FIELD)
    ensures !IsDone(Next(p, u[p.i]))
    ensures Next(p, u[p.i]) ==
            p.(uname := Pad(u[..p.i + 1], FIELD), i := p.i + 1, state := if p.i + 1 < |u| then UName else PLen)
    ensures p.i + 1 == |u| ==> u[..p.i + 1] == u
  {
    FieldGrows(u, p.i);
  }

  lemma {:induction false} UNameFills(p: Credentials, u: seq<byte>, rest: seq<byte>)
    requires |u| <= FIELD && p.state == UName && p.len == |u| && p.i < |u| && p.uname == Pad(u[..p.i], FIELD)
    ensures var p' := p.(state := PLen, i := |u|, uname := Pad(u, FIELD));
            var t := Parsed(p', rest);
            Parsed(p, u[p.i..] + rest) == Parse(t.st, |u| - p.i + t.eaten)
    decreases |u| - p.i
  {
    hide Parsed, Next;
    UNameGrows(p, u);
    assert u[p.i..] + rest == [u[p.i]] + (u[p.i + 1..] + rest);
    StepParsed(p, u[p.i], u[p.i + 1..] + rest);
    if p.i + 1 < |u| {
      UNameFills(Next(p, u[p.i]), u, rest);
    } else {
      assert u[p.i + 1..] + rest == rest;
    }
  }

  lemma PasswdGrows(p: Credentials, pw: seq<byte>)
    requires |pw| <= FIELD && p.state == Passwd && p.len == |pw| && p.i < |pw| && p.passwd == Pad(pw[..p.i], FIELD)
    ensures IsDone(Next(p, pw[p.i])) <==> p.i + 1 == |pw|
    ensures Next(p, pw[p.i]) ==
            p.(passwd := Pad(pw[..p.i + 1], FIELD), i := p.i + 1, state := if p.i + 1 < |pw| then Passwd else Done)
    ensures p.i + 1 == |pw| ==> pw[..p.i + 1] == pw
  {
    FieldGrows(pw, p.i);
  }

  lemma {:induction false} PasswdFills(p: Credentials, pw: seq<byte>, rest: seq<byte>)
    requires |pw| <= FIELD && p.state == Passwd && p.len == |pw| && p.i < |pw| && p.passwd == Pad(pw[..p.i], FIELD)
    ensures Parsed(p, pw[p.i..] + rest) == Parse(p.(state := Done, i := |pw|, passwd := Pad(pw, FIELD)), |pw| - p.i)
    decreases |pw| - p.i
  {
    hide Parsed, Next;
    PasswdGrows(p, pw);
    assert pw[p.i..] + rest == [pw[p.i]] + (pw[p.i + 1..] + rest);
    if p.i + 1 < |pw| {
      StepParsed(p, pw[p.i], pw[p.i + 1..] + rest);
      PasswdFills(Next(p, pw[p.i]), pw, rest);
    } else {
      LastParsed(p, pw[p.i], pw[p.i + 1..] + rest);
    }
  }

  /** Every credential message of RFC 1929 is recovered, and what follows it is left unread. */
  lemma AuthRoundTrip(u: seq<byte>, pw: seq<byte>, rest: seq<byte>)
    requires 1 <= |u| <= 255 && 1 <= |pw| <= 255
    ensures Parsed(INIT, Encode(u, pw) + rest) ==
            Parse(Credentials(Done, |pw|, |pw|, Pad(u, FIELD), Pad(pw, FIELD)), |Encode(u, pw)|)
  {
    var bs := Encode(u, pw) + rest;
    var p1 := Next(INIT, 1);
    var p2 := Next(p1, |u|);
    var tail := [|pw|] + pw + rest;
    assert Feeder()(INIT, bs[0]) == p1 && Feeder()(p1, bs[1]) == p2;
    assert bs[1..][1..] == u[p2.i..] + tail;
    assert Pad([], FIELD) == Zeros(FIELD);
    UNameFills(p2, u, tail);
    var p3 := p2.(state := PLen, i := |u|, uname := Pad(u, FIELD));
    var p4 := Next(p3, |pw|);
    assert Feeder()(p3, tail[0]) == p4;
    assert tail[1..] == pw[p4.i..] + rest;
    PasswdFills(p4, pw, rest);
    assert Parsed(p3, tail) == Parse(Parsed(p4, tail[1..]).st, 1 + Parsed(p4, tail[1..]).eaten);
    assert Parsed(p1, bs[1..]) == Parse(Parsed(p2, bs[1..][1..]).st, 1 + Parsed(p2, bs[1..][1..]).eaten);
  }
}
