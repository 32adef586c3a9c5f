/** Method negotiation (section 3 of RFC 1928): the parser and the reply of hello.c. */
module Hello {
  import opened Bytes
  import opened Buffers
  import opened Incremental

  const NO_AUTHENTICATION: byte := 0x00
  const USERNAME_PASSWORD: byte := 0x02
  const NO_ACCEPTABLE: byte := 0xFF

  datatype State = Version | NMethods | Methods | Done | UnsupportedVersion

  /** Parser fields, and the method selected so far by the callback of the session. */
  datatype Negotiation = Negotiation(state: State, remaining: byte, chosen: byte)

  const INIT := Negotiation(Version, 0, NO_ACCEPTABLE)

  /** The one method the server accepts while authentication is on or off. */
  function Accepted(authOn: bool): byte {
    if authOn then USERNAME_PASSWORD else NO_AUTHENTICATION
  }

  function Next(authOn: bool, p: Negotiation, b: byte): Negotiation {
    match p.state
    case Version => p.(state := if b == 5 then NMethods else UnsupportedVersion)
    case NMethods => p.(remaining := b, state := if b == 0 then Done else Methods)
    case Methods =>
      var left: byte := if p.remaining == 0 then 255 else p.remaining - 1;
      Negotiation(if left == 0 then Done else Methods, left, if b == Accepted(authOn) then b else p.chosen)
    case Done => p
    case UnsupportedVersion => p
  }

  function Feeder(authOn: bool): (Negotiation, byte) -> Negotiation {
    (p: Negotiation, b: byte) => Next(authOn, p, b)
  }

  predicate IsDone(p: Negotiation) {
    p.state == Done || p.state == UnsupportedVersion
  }

  predicate Errored(p: Negotiation) {
    p.state == UnsupportedVersion
  }

  function Parsed(authOn: bool, p: Negotiation, bs: seq<byte>): (r: Parse<Negotiation>)
    ensures r.eaten <= |bs| && (!IsDone(r.st) ==> r.eaten == |bs|)
  {
    Consume(Feeder(authOn), IsDone, p, bs)
  }

  function Reply(chosen: byte): seq<byte> {
    [5, chosen]
  }

  class HelloParser {
    var state: State
    var remaining: byte
    var chosen: byte

    function View(): Negotiation
      reads this
    {
      Negotiation(state, remaining, chosen)
    }

    constructor ()
      ensures View() == INIT
    {
      state, remaining, chosen := Version, 0, NO_ACCEPTABLE;
    }

    /** The parser that stands where `p` says. */
    constructor At(p: Negotiation)
      ensures View() == p
    {
      state, remaining, chosen := p.state, p.remaining, p.chosen;
    }

    method Feed(authOn: bool, b: byte)
      modifies this
      ensures View() == Next(authOn, old(View()), b)
    {
      match state {
        case Version =>
          state := if b == 5 then NMethods else UnsupportedVersion;
        case NMethods =>
          remaining := b;
          state := Methods;
          if remaining <= 0 {
            state := Done;
          }
        case Methods =>
          if (!authOn && b == NO_AUTHENTICATION) || (authOn && b == USERNAME_PASSWORD) {
            chosen := b;
          }
          remaining := if remaining == 0 then 255 else remaining - 1;
          if remaining <= 0 {
            state := Done;
          }
        case Done =>
        case UnsupportedVersion =>
      }
    }

    method Consume(authOn: bool, b: Buffer) returns (errored: bool)
      requires b.Valid()
      modifies this, b, b.data
      ensures b.Valid() && errored == (Errored(View()) && old(b.View()).bytes != [])
      ensures var p := Parsed(authOn, old(View()), old(b.View()).bytes);
              View() == p.st && b.View() == old(b.View()).Take(p.eaten)
    {
      ghost var q0, s0, k := b.View(), View(), 0;
      errored := false;
      while b.CanRead()
        invariant b.Valid() && k <= |q0.bytes| && b.View() == q0.Take(k)
        invariant !errored
        invariant Parsed(authOn, s0, q0.bytes) ==
                  var p := Parsed(authOn, View(), q0.bytes[k..]); Parse(p.st, k + p.eaten)
        invariant k > 0 ==> !IsDone(View())
        decreases |q0.bytes| - k
      {
        var c := b.Read();
        assert q0.bytes[k..][1..] == q0.bytes[k + 1..];
        Feed(authOn, c);
        k := k + 1;
        if state == Done || state == UnsupportedVersion {
          errored := state == UnsupportedVersion;
          return;
        }
      }
    }
  }

  /** hello_marshall: 2, or -1 when the reply does not fit. */
  method Marshall(b: Buffer, chosen: byte) returns (n: int)
    requires b.Valid()
    modifies b, b.data
    ensures b.Valid()
    ensures if old(b.View()).Space() < 2 then n == -1 && b.View() == old(b.View())
            else n == 2 && b.View() == old(b.View()).Put(Reply(chosen))
  {
    if b.limit - b.write < 2 {
      return -1;
    }
    b.Fill(Reply(chosen));
    b.WriteAdv(2);
    return 2;
  }

  ghost function Encode(methods: seq<byte>): seq<byte>
    requires |methods| <= 255
  {
    [5, |methods|] + methods
  }

  /** The method list leaves the accepted method selected if it occurs, and the earlier selection if not. */
  lemma {:induction false} MethodsSelect(authOn: bool, p: Negotiation, methods: seq<byte>, rest: seq<byte>)
    requires p.state == Methods && 0 < |methods| == p.remaining
    ensures Parsed(authOn, p, methods + rest) ==
            Parse(Negotiation(Done, 0, if Accepted(authOn) in methods then Accepted(authOn) else p.chosen), |methods|)
    decreases |methods|
  {
    var bs := methods + rest;
    var p1 := Next(authOn, p, bs[0]);
    assert Feeder(authOn)(p, bs[0]) == p1;
    if |methods| > 1 {
      assert bs[1..] == methods[1..] + rest;
      MethodsSelect(authOn, p1, methods[1..], rest);
      assert methods == [methods[0]] + methods[1..];
    }
  }

  /** Parsing any offer selects the accepted method exactly when it was offered, and FF otherwise. */
  lemma HelloRoundTrip(authOn: bool, methods: seq<byte>, rest: seq<byte>)
    requires |methods| <= 255
    ensures Parsed(authOn, INIT, Encode(methods) + rest) ==
            Parse(Negotiation(Done, 0, if Accepted(authOn) in methods then Accepted(authOn) else NO_ACCEPTABLE),
                  2 + |methods|)
  {
    var bs := Encode(methods) + rest;
    var p1 := Next(authOn, INIT, 5);
    var p2 := Next(authOn, p1, |methods|);
    assert Feeder(authOn)(INIT, bs[0]) == p1 && Feeder(authOn)(p1, bs[1]) == p2;
    assert bs[1..][0] == bs[1] && bs[1..][1..] == methods + rest;
    if |methods| > 0 {
      MethodsSelect(authOn, p2, methods, rest);
    }
    var tail := if |methods| == 0 then Parse(p2, 0) else Parsed(authOn, p2, methods + rest);
    assert Parsed(authOn, p1, bs[1..]) == Parse(tail.st, 1 + tail.eaten);
  }

  /** A list cut short leaves the parser waiting for the rest, with what it has selected so far. */
  lemma {:induction false} MethodsWait(authOn: bool, p: Negotiation, methods: seq<byte>)
    requires p.state == Methods && |methods| < p.remaining
    ensures Parsed(authOn, p, methods) ==
            Parse(Negotiation(Methods, p.remaining - |methods|,
                              if Accepted(authOn) in methods then Accepted(authOn) else p.chosen), |methods|)
    decreases |methods|
  {
    if methods != [] {
      var p1 := Next(authOn, p, methods[0]);
      assert Feeder(authOn)(p, methods[0]) == p1;
      MethodsWait(authOn, p1, methods[1..]);
      assert methods == [methods[0]] + methods[1..];
    }
  }

  lemma ParsedStep(authOn: bool, p: Negotiation, bs: seq<byte>)
    requires bs != []
    ensures var p1 := Next(authOn, p, bs[0]);
            Parsed(authOn, p, bs) ==
            if IsDone(p1) then Parse(p1, 1)
            else Parse(Parsed(authOn, p1, bs[1..]).st, 1 + Parsed(authOn, p1, bs[1..]).eaten)
  {
    assert Feeder(authOn)(p, bs[0]) == Next(authOn, p, bs[0]);
  }

  /** The converse: a parser that is done has eaten exactly one well-formed offer. */
  lemma HelloShape(authOn: bool, bs: seq<byte>)
    requires Parsed(authOn, INIT, bs).st.state == Done
    ensures var p := Parsed(authOn, INIT, bs);
            && |bs| >= 2 && p.eaten == 2 + bs[1] <= |bs| && bs[..p.eaten] == Encode(bs[2..p.eaten])
            && p.st.chosen == if Accepted(authOn) in bs[2..p.eaten] then Accepted(authOn) else NO_ACCEPTABLE
  {
    assert bs != [];
    ParsedStep(authOn, INIT, bs);
    var p1 := Next(authOn, INIT, bs[0]);
    if bs[1..] == [] {
      assert false;
    }
    ParsedStep(authOn, p1, bs[1..]);
    var n: nat := bs[1];
    if |bs| < 2 + n {
      MethodsWait(authOn, Next(authOn, p1, n), bs[1..][1..]);
      assert false;
    }
    var methods := bs[2..2 + n];
    assert bs == Encode(methods) + bs[2 + n..];
    HelloRoundTrip(authOn, methods, bs[2 + n..]);
  }

  // ---------------------------------------------------------------- authentication switched off midway

  /** An offer whose first `early` bytes met the flag as it was, and the rest met it fallen. */
  function Negotiated(authOn: bool, hello: seq<byte>, early: nat): Parse<Negotiation>
    requires early <= |hello|
  {
    var q := Parsed(authOn, INIT, hello[..early]);
    var p := Parsed(false, q.st, hello[early..]);
    Parse(p.st, q.eaten + p.eaten)
  }

  /** The methods that came before byte `early` of the offer. */
  function FirstPart(hello: seq<byte>, early: nat): seq<byte>
    requires 2 <= |hello| && early <= |hello|
  {
    hello[2..if early < 2 then 2 else early]
  }

  function LastPart(hello: seq<byte>, early: nat): seq<byte>
    requires 2 <= |hello| && early <= |hello|
  {
    hello[if early < 2 then 2 else early..]
  }

  /** The method such an offer gets: the last of the accepted ones, each accepted while it came. */
  function Selected(authOn: bool, hello: seq<byte>, early: nat): byte
    requires 2 <= |hello| && early <= |hello|
  {
    if NO_AUTHENTICATION in LastPart(hello, early) then NO_AUTHENTICATION
    else if Accepted(authOn) in FirstPart(hello, early) then Accepted(authOn) else NO_ACCEPTABLE
  }

  lemma NegotiatedSteady(authOn: bool, hello: seq<byte>)
    ensures Negotiated(authOn, hello, |hello|) == Parsed(authOn, INIT, hello)
  {
    assert hello[..|hello|] == hello && hello[|hello|..] == [];
  }

  /** Version and count are read alike whatever the flag. */
  lemma HeadIgnoresFlag(authOn: bool, head: seq<byte>)
    requires |head| <= 2
    ensures Parsed(authOn, INIT, head) == Parsed(false, INIT, head)
  {
    if head != [] {
      ParsedStep(authOn, INIT, head);
      ParsedStep(false, INIT, head);
      if |head| == 2 {
        ParsedStep(authOn, Next(authOn, INIT, head[0]), head[1..]);
        ParsedStep(false, Next(false, INIT, head[0]), head[1..]);
      }
    }
  }

  lemma HeadParsed(authOn: bool, bs: seq<byte>)
    requires |bs| > 2 && !IsDone(Parsed(authOn, INIT, bs).st)
    ensures bs[0] == 5 && bs[1] > 0
    ensures var p := Negotiation(Methods, bs[1], NO_ACCEPTABLE);
            var r := Parsed(authOn, p, bs[2..]);
            Parsed(authOn, INIT, bs) == Parse(r.st, 2 + r.eaten)
  {
    ParsedStep(authOn, INIT, bs);
    ParsedStep(authOn, Next(authOn, INIT, bs[0]), bs[1..]);
    assert bs[1..][1..] == bs[2..];
  }

  /** The flag falls among the methods. */
  lemma CutAmongMethods(authOn: bool, hello: seq<byte>, early: nat)
    requires 2 < early < |hello| && !IsDone(Parsed(authOn, INIT, hello[..early]).st)
    requires var p := Negotiated(authOn, hello, early); p.st.state == Done && p.eaten == |hello|
    ensures hello[0] == 5 && hello[1] == |hello| - 2
    ensures Negotiated(authOn, hello, early).st.chosen == Selected(authOn, hello, early)
  {
    var first, before, after := hello[..early], hello[2..early], hello[early..];
    HeadParsed(authOn, first);
    assert first[2..] == before;
    var n := hello[1];
    var p := Negotiation(Methods, n, NO_ACCEPTABLE);
    if n <= |before| {
      assert before == before[..n] + before[n..];
      MethodsSelect(authOn, p, before[..n], before[n..]);
      assert false;
    }
    MethodsWait(authOn, p, before);
    var q := Parsed(authOn, p, before).st;
    if |after| < q.remaining {
      MethodsWait(false, q, after);
      assert false;
    }
    assert after == after[..q.remaining] + after[q.remaining..];
    MethodsSelect(false, q, after[..q.remaining], after[q.remaining..]);
    assert after[..q.remaining] == after;
  }

  /** The converse for any moment of the fall: a complete offer is well formed and got the method it should. */
  lemma OfferShape(authOn: bool, hello: seq<byte>, early: nat)
    requires early <= |hello| && (early < |hello| ==> !IsDone(Parsed(authOn, INIT, hello[..early]).st))
    requires var p := Negotiated(authOn, hello, early); p.st.state == Done && p.eaten == |hello|
    ensures 2 <= |hello| && hello == [5, |hello| - 2] + hello[2..]
    ensures Negotiated(authOn, hello, early).st.chosen == Selected(authOn, hello, early)
  {
    if early == |hello| {
      NegotiatedSteady(authOn, hello);
      HelloShape(authOn, hello);
      assert hello[..|hello|] == hello && hello[2..|hello|] == hello[2..];
    } else if early <= 2 {
      HeadIgnoresFlag(authOn, hello[..early]);
      assert hello == hello[..early] + hello[early..];
      ConsumeSplit(Feeder(false), IsDone, INIT, hello[..early], hello[early..]);
      HelloShape(false, hello);
      assert hello[..|hello|] == hello && hello[2..|hello|] == hello[2..];
    } else {
      CutAmongMethods(authOn, hello, early);
      assert hello == [hello[0], hello[1]] + hello[2..];
    }
  }

  /** Switched off midway, the flag leaves 02 selected although nobody will be asked for a password. */
  lemma FlagFallsMidway()
    ensures var p := Negotiated(true, [5, 2, USERNAME_PASSWORD, 7], 3);
            p.st.state == Done && p.st.chosen == USERNAME_PASSWORD
  {
    var hello: seq<byte> := [5, 2, USERNAME_PASSWORD, 7];
    var p := Negotiation(Methods, 2, NO_ACCEPTABLE);
    assert hello[..3] == [5, 2] + [USERNAME_PASSWORD] && hello[3..] == [7];
    ParsedStep(true, INIT, hello[..3]);
    ParsedStep(true, Next(true, INIT, 5), hello[..3][1..]);
    assert hello[..3][1..][1..] == [USERNAME_PASSWORD];
    MethodsWait(true, p, [USERNAME_PASSWORD]);
    var q := Parsed(true, p, [USERNAME_PASSWORD]).st;
    assert [7] + [] == [7];
    MethodsSelect(false, q, [7], []);
  }
}
