/**
 * Where the two parsers that fill arrays by an index of the peer's choosing store: what they store, and
 * exactly for which messages every store falls inside.
 */
module Stores {
  import opened Bytes
  import opened Buffers
  import opened Incremental
  import opened Monitor
  import opened MonitorSharing
  import R = Request

  datatype Put = Put(at: int, b: byte)

  /** The stores, in order; one outside the array changes nothing that the machine holds. */
  function Written(a: seq<byte>, puts: seq<Put>): (r: seq<byte>)
    ensures |r| == |a|
    decreases |puts|
  {
    if puts == [] then a else Written(Store(a, puts[0].at, puts[0].b), puts[1..])
  }

  predicate Inside(puts: seq<Put>, n: nat) {
    forall k :: 0 <= k < |puts| ==> 0 <= puts[k].at < n
  }

  // ---------------------------------------------------------------- the SOCKS request

  /** What one byte stores into the address, counted from its first byte. */
  function AddressPuts(p: R.Req, b: byte): seq<Put> {
    match p.state
    case FqdnLen => [Put(b - 1, 0)]
    case DstAddr => [Put(p.i, b)]
    case _ => []
  }

  function PortPuts(p: R.Req, b: byte): seq<Put> {
    if p.state == R.DstPort then [Put(p.i, b)] else []
  }

  /** Those are all, but for the clearing of the address by its type and of the port by the last of it. */
  lemma AddressPutsAreAll(p: R.Req, b: byte)
    ensures p.state != R.Atyp ==> R.Next(p, b).addr == Written(p.addr, AddressPuts(p, b))
    ensures p.state != R.DstAddr ==> R.Next(p, b).port == Written(p.port, PortPuts(p, b))
  {
  }

  /** Every store of a parse falls inside its array. */
  ghost predicate RequestInside(p: R.Req, bs: seq<byte>)
    decreases |bs|
  {
    bs == [] ||
    (&& Inside(AddressPuts(p, bs[0]), R.FQDN) && Inside(PortPuts(p, bs[0]), 2)
     && (R.IsDone(R.Next(p, bs[0])) || RequestInside(R.Next(p, bs[0]), bs[1..])))
  }

  ghost predicate InAddress(p: R.Req) {
    && |p.port| == 2 && (p.state == R.DstAddr || p.state == R.DstPort)
    && (p.i == 0 || p.i < p.n) && (p.state == R.DstPort ==> p.n == 2)
  }

  lemma {:induction false} AddressInside(p: R.Req, bs: seq<byte>)
    requires InAddress(p)
    ensures RequestInside(p, bs)
    decreases |bs|
  {
    if bs != [] && !R.IsDone(R.Next(p, bs[0])) {
      AddressInside(R.Next(p, bs[0]), bs[1..]);
    }
  }

  /** A name of length zero is announced: the fifth byte of a request for a name. */
  predicate NoName(bs: seq<byte>) {
    |bs| >= 5 && bs[0] == 5 && bs[3] == R.DOMAIN && bs[4] == 0
  }

  /** Whatever the client sends, every store falls inside unless it announces a name of length zero. */
  lemma RequestInsideIff(bs: seq<byte>)
    ensures RequestInside(R.INIT, bs) <==> !NoName(bs)
  {
    if bs != [] && bs[0] == 5 {
      RequestOnward(R.INIT, bs);
      var p1 := R.Next(R.INIT, 5);
      if |bs| >= 2 {
        RequestOnward(p1, bs[1..]);
        var p2 := R.Next(p1, bs[1]);
        assert bs[1..][1..] == bs[2..];
        if |bs| >= 3 {
          RequestOnward(p2, bs[2..]);
          assert bs[2..][1..] == bs[3..];
          TypeInsideIff(R.Next(p2, bs[2]), bs[3..]);
        }
      }
    }
  }

  lemma RequestOnward(p: R.Req, bs: seq<byte>)
    requires bs != [] && AddressPuts(p, bs[0]) == PortPuts(p, bs[0]) == [] && !R.IsDone(R.Next(p, bs[0]))
    ensures RequestInside(p, bs) <==> RequestInside(R.Next(p, bs[0]), bs[1..])
  {
  }

  lemma TypeInsideIff(p: R.Req, bs: seq<byte>)
    requires p.state == R.Atyp && |p.port| == 2
    ensures RequestInside(p, bs) <==> !(|bs| >= 2 && bs[0] == R.DOMAIN && bs[1] == 0)
  {
    if bs != [] {
      var q := R.Next(p, bs[0]);
      if bs[0] == R.DOMAIN {
        assert bs[1..] != [] ==> bs[1..][0] == bs[1];
        if |bs| >= 2 {
          AddressInside(R.Next(q, bs[1]), bs[1..][1..]);
        }
      } else if bs[0] == R.IPV4 || bs[0] == R.IPV6 {
        AddressInside(q, bs[1..]);
      }
    }
  }

  /** Five bytes whose last one makes the parser store in front of the address. */
  lemma StoreInFront()
    ensures var bs: seq<byte> := [5, R.CONNECT, 0, R.DOMAIN, 0];
            !RequestInside(R.INIT, bs)
            && AddressPuts(R.Parsed(R.INIT, bs[..4]).st, bs[4]) == [Put(-1, 0)]
  {
    var bs: seq<byte> := [5, R.CONNECT, 0, R.DOMAIN, 0];
    RequestInsideIff(bs);
    R.HeaderParsed(R.CONNECT, 0, R.DOMAIN, []);
    assert bs[..4] == [5, R.CONNECT, 0, R.DOMAIN] + [];
  }

  // ---------------------------------------------------------------- the management request

  /** What one byte stores into the parameters. */
  function DataPuts(x: Machine, c: byte): seq<Put> {
    var m := x.m;
    if m.state != Data then []
    else if m.target == TOGGLE then [Put(0, c)]
    else if !TakesPair(m) then (if Alnum(c) then [Put(m.i, c)] + Terminator(m, m.i + 1) else [])
    else if Alnum(c) then
      [Put(if m.separated then FIELD + (m.i - x.s.userLen) else m.i, c)] + Terminator(m, FIELD + m.i + 1)
    else if c == 0 && !m.separated && m.i != 0 then [Put(m.i, 0)] + Terminator(m, FIELD + m.i + 1)
    else []
  }

  /** The last byte of the parameters is followed by a NUL. */
  function Terminator(m: Mon, at: int): seq<Put> {
    if m.i + 1 >= m.len then [Put(at, 0)] else []
  }

  lemma OnePut(a: seq<byte>, puts: seq<Put>)
    requires |puts| <= 1
    ensures Written(a, puts) == if puts == [] then a else Store(a, puts[0].at, puts[0].b)
  {
    if puts != [] {
      assert puts[1..] == [];
    }
  }

  lemma DataPutsAreAll(x: Machine, c: byte)
    ensures Next(x, c).m.data == Written(x.m.data, DataPuts(x, c))
  {
    var m, puts := x.m, DataPuts(x, c);
    if puts != [] && m.target != TOGGLE {
      var end := Terminator(m, if TakesPair(m) then FIELD + m.i + 1 else m.i + 1);
      assert puts == [puts[0]] + end && puts[1..] == end;
      assert Written(m.data, puts) == Written(Store(m.data, puts[0].at, puts[0].b), end);
      OnePut(Store(m.data, puts[0].at, puts[0].b), end);
    }
  }

  ghost predicate DataInside(x: Machine, bs: seq<byte>)
    decreases |bs|
  {
    bs == [] ||
    (&& Inside(DataPuts(x, bs[0]), DATA_SIZE)
     && (IsDone(Next(x, bs[0])) || DataInside(Next(x, bs[0]), bs[1..])))
  }

  /** What a parser on its own keeps up to its end. */
  ghost predicate Lined(x: Machine) {
    && Tidy(x)
    && (x.m.state == Dlen || x.m.state == Data ==> x.m.verb != GET)
    && (x.m.state == Data && x.m.target != TOGGLE ==> x.m.len == x.m.dlen && (x.m.i == 0 || x.m.i < x.m.len))
  }

  lemma LinedNext(x: Machine, c: byte)
    requires Lined(x)
    ensures Lined(Next(x, c))
  {
    TidyNext(x, c);
    hide ZeroFrom;
  }

  lemma NothingStored(x: Machine, c: byte)
    requires x.m.state != Data
    ensures Inside(DataPuts(x, c), DATA_SIZE)
  {
  }

  /** The longest parameters that fit, by what is to be done with them. */
  function Longest(m: Mon): nat {
    if TakesPair(m) then 255 else 511
  }

  /** Short parameters are stored inside, byte by byte. */
  lemma ShortInside(x: Machine, c: byte)
    requires Lined(x) && x.m.state == Data && x.m.target != TOGGLE && x.m.dlen <= Longest(x.m)
    ensures Inside(DataPuts(x, c), DATA_SIZE)
  {
    hide ZeroFrom;
  }

  /** Of long ones the terminator is not. */
  lemma LongOutside(x: Machine, c: byte)
    requires Lined(x) && x.m.state == Data && x.m.target != TOGGLE && x.m.dlen > Longest(x.m)
    requires Next(x, c).m.state == Done
    ensures !Inside(DataPuts(x, c), DATA_SIZE)
  {
    hide ZeroFrom;
    var puts := DataPuts(x, c);
    assert |puts| == 2 && puts[1].at >= DATA_SIZE;
  }

  lemma KeepsKind(x: Machine, c: byte)
    requires Past(x.m)
    ensures var m := Next(x, c).m; m.dlen == x.m.dlen && m.target == x.m.target && m.verb == x.m.verb && Past(m)
  {
  }

  lemma {:induction false} KindIsFinal(x: Machine, bs: seq<byte>)
    requires Past(x.m)
    ensures var m := Parsed(x, bs).st.m; m.dlen == x.m.dlen && m.target == x.m.target && m.verb == x.m.verb
    decreases |bs|
  {
    hide Next, Past;
    if bs != [] {
      KeepsKind(x, bs[0]);
      Onward(x, bs);
      KindIsFinal(Next(x, bs[0]), bs[1..]);
    }
  }

  lemma Onward(x: Machine, bs: seq<byte>)
    requires bs != []
    ensures var y := Next(x, bs[0]);
            Parsed(x, bs).st == if IsDone(y) then y else Parsed(y, bs[1..]).st
  {
    assert Feeder()(x, bs[0]) == Next(x, bs[0]);
  }

  lemma {:induction false} DataInsideFrom(x: Machine, bs: seq<byte>)
    requires Lined(x) && !IsDone(x) && Parsed(x, bs).st.m.state == Done
    ensures var m := Parsed(x, bs).st.m;
            DataInside(x, bs) <==> m.verb == GET || m.target == TOGGLE || m.dlen <= Longest(m)
    decreases |bs|
  {
    hide Next, Tidy, DataPuts;
    assert bs != [];
    var c := bs[0];
    var y := Next(x, c);
    Onward(x, bs);
    LinedNext(x, c);
    if !IsDone(y) {
      DataInsideFrom(y, bs[1..]);
    }
    if x.m.state != Data {
      NothingStored(x, c);
      if IsDone(y) {
        EarlyEnd(x, c);
      }
    } else {
      KeepsKind(x, c);
      if !IsDone(y) {
        KindIsFinal(y, bs[1..]);
      }
      if x.m.target == TOGGLE {
        ToggleInside(x, c);
      } else if x.m.dlen <= Longest(x.m) {
        ShortInside(x, c);
      } else if IsDone(y) {
        LongOutside(x, c);
      }
    }
  }

  lemma EarlyEnd(x: Machine, c: byte)
    requires x.m.state != Data && !IsDone(x) && Next(x, c).m.state == Done
    ensures Next(x, c).m.verb == GET
  {
  }

  lemma ToggleInside(x: Machine, c: byte)
    requires x.m.state == Data && x.m.target == TOGGLE
    ensures Inside(DataPuts(x, c), DATA_SIZE)
  {
  }

  /**
   * For a request that is parsed to its end, whoever sent it: every store falls inside the parameters if
   * and only if they are at most 255 bytes for an addition, and at most 511 for a deletion.
   */
  lemma DataInsideIff(s: Statics, bs: seq<byte>)
    requires |s.combined| == 2 && Parsed(Machine(FRESH, s), bs).st.m.state == Done
    ensures var m := Parsed(Machine(FRESH, s), bs).st.m;
            DataInside(Machine(FRESH, s), bs) <==> m.verb == GET || m.target == TOGGLE || m.dlen <= Longest(m)
  {
    hide Parsed, DataInside, Longest;
    DataInsideFrom(Machine(FRESH, s), bs);
  }

  // ---------------------------------------------------------------- requests that store past the end

  function Letters(n: nat): (s: seq<byte>)
    ensures |s| == n && forall i :: 0 <= i < n ==> s[i] == 97
  {
    seq(n, i => 97)
  }

  /** Letters alone complete a request, whatever is announced. */
  lemma {:induction false} LettersComplete(x: Machine, n: nat)
    requires x.m.state == Data && x.m.target != TOGGLE && !x.m.separated && x.m.i + n == x.m.len && n > 0
    ensures var m := Parsed(x, Letters(n)).st.m;
            m.state == Done && m.dlen == x.m.dlen && m.target == x.m.target && m.verb == x.m.verb
    decreases n
  {
    var bs := Letters(n);
    Onward(x, bs);
    KeepsKind(x, 97);
    LetterEaten(x);
    if n > 1 {
      assert bs[1..] == Letters(n - 1);
      hide Next, Parsed, Letters;
      LettersComplete(Next(x, 97), n - 1);
    }
  }

  lemma LetterEaten(x: Machine)
    requires x.m.state == Data && x.m.target != TOGGLE && !x.m.separated && x.m.i < x.m.len
    ensures var m := Next(x, 97).m;
            if x.m.i + 1 == x.m.len then m.state == Done
            else m.state == Data && !m.separated && m.i == x.m.i + 1 && m.len == x.m.len
  {
  }

  /** Both bounds are met by requests that anybody can send, with any token: one byte more stores outside. */
  lemma StorePastTheEnd(token: seq<byte>, s: Statics, kind: byte, n: nat)
    requires |token| == TOKEN_SIZE && |s.combined| == 2 && 1 <= kind <= 4 && 0 < n < 0x1_0000
    ensures var bs := [1] + token + [CONFIG, kind, n / 256, n % 256] + Letters(n);
            && Parsed(Machine(FRESH, s), bs).st.m.state == Done
            && (DataInside(Machine(FRESH, s), bs) <==> n <= if kind == ADD_USER || kind == ADD_ADMIN then 255 else 511)
  {
    hide Letters, Parsed, DataInside;
    var x := Machine(AtData(token, kind, n), Statics([n / 256, n % 256], s.userLen));
    var bs := [1] + token + [CONFIG, kind, n / 256, n % 256] + Letters(n);
    assert bs == [1] + token + ([CONFIG, kind, n / 256, n % 256] + Letters(n));
    HeadParsed(token, s, [CONFIG, kind, n / 256, n % 256] + Letters(n));
    ConfigParsed(token, s, kind, n, Letters(n));
    LettersComplete(x, n);
    DataInsideIff(s, bs);
  }
}
