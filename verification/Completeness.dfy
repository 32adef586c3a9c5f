/** Exactly which bytes are a complete message, which are an error, and which leave a parser waiting. */
module Completeness {
  import opened Bytes
  import opened Buffers
  import opened Incremental
  import H = Hello
  import A = Auth
  import R = Request

  // ---------------------------------------------------------------- the offer

  predicate OfferComplete(bs: seq<byte>) {
    |bs| >= 2 && bs[0] == 5 && |bs| - 2 >= bs[1]
  }

  predicate WrongVersion(bs: seq<byte>, version: byte) {
    bs != [] && bs[0] != version
  }

  /** How far a parser is does not depend on the flag. */
  lemma {:induction false} FlagIgnored(a: bool, b: bool, p: H.Negotiation, q: H.Negotiation, bs: seq<byte>)
    requires p.state == q.state && p.remaining == q.remaining
    ensures var r, s := H.Parsed(a, p, bs), H.Parsed(b, q, bs);
            r.st.state == s.st.state && r.st.remaining == s.st.remaining && r.eaten == s.eaten
    decreases |bs|
  {
    if bs != [] {
      H.ParsedStep(a, p, bs);
      H.ParsedStep(b, q, bs);
      var p1, q1 := H.Next(a, p, bs[0]), H.Next(b, q, bs[0]);
      if !H.IsDone(p1) {
        FlagIgnored(a, b, p1, q1, bs[1..]);
      }
    }
  }

  lemma OfferStateIff(authOn: bool, bs: seq<byte>)
    ensures H.Parsed(authOn, H.INIT, bs).st.state == H.Done <==> OfferComplete(bs)
    ensures H.Parsed(authOn, H.INIT, bs).st.state == H.UnsupportedVersion <==> WrongVersion(bs, 5)
  {
    if OfferComplete(bs) {
      var n: nat := bs[1];
      assert bs == H.Encode(bs[2..2 + n]) + bs[2 + n..];
      H.HelloRoundTrip(authOn, bs[2..2 + n], bs[2 + n..]);
    } else if H.Parsed(authOn, H.INIT, bs).st.state == H.Done {
      H.HelloShape(authOn, bs);
    }
    OfferVersion(authOn, bs);
  }

  lemma {:induction false} OfferGoesOn(authOn: bool, p: H.Negotiation, bs: seq<byte>)
    requires p.state != H.Version && p.state != H.UnsupportedVersion
    ensures H.Parsed(authOn, p, bs).st.state != H.UnsupportedVersion
    decreases |bs|
  {
    if bs != [] {
      H.ParsedStep(authOn, p, bs);
      if !H.IsDone(H.Next(authOn, p, bs[0])) {
        OfferGoesOn(authOn, H.Next(authOn, p, bs[0]), bs[1..]);
      }
    }
  }

  lemma OfferVersion(authOn: bool, bs: seq<byte>)
    ensures H.Parsed(authOn, H.INIT, bs).st.state == H.UnsupportedVersion <==> WrongVersion(bs, 5)
  {
    if bs != [] {
      H.ParsedStep(authOn, H.INIT, bs);
      if bs[0] == 5 {
        OfferGoesOn(authOn, H.Next(authOn, H.INIT, 5), bs[1..]);
      }
    }
  }

  // ---------------------------------------------------------------- fields

  /** A length of zero still takes a byte. */
  function Field(n: byte): nat {
    if n == 0 then 1 else n
  }

  // ---------------------------------------------------------------- the credentials

  predicate CredentialsComplete(bs: seq<byte>) {
    && |bs| >= 2 && bs[0] == 1
    && var u := Field(bs[1]);
       |bs| >= 3 + u && |bs| >= 3 + u + Field(bs[2 + u])
  }

  lemma AuthOnward(p: A.Credentials, bs: seq<byte>)
    requires bs != []
    ensures var q := A.Next(p, bs[0]);
            A.Parsed(p, bs).st == if A.IsDone(q) then q else A.Parsed(q, bs[1..]).st
  {
    assert A.Feeder()(p, bs[0]) == A.Next(p, bs[0]);
  }

  predicate InField(p: A.Credentials) {
    p.i == 0 || p.i < p.len
  }

  function Missing(p: A.Credentials): nat
    requires InField(p)
  {
    Field(p.len) - p.i
  }

  lemma {:induction false} PasswdStateIff(p: A.Credentials, bs: seq<byte>)
    requires p.state == A.Passwd && InField(p)
    ensures A.Parsed(p, bs).st.state == if |bs| >= Missing(p) then A.Done else A.Passwd
    decreases |bs|
  {
    if bs != [] {
      AuthOnward(p, bs);
      if Missing(p) > 1 {
        PasswdStateIff(A.Next(p, bs[0]), bs[1..]);
      }
    }
  }

  /** From the length of the password on. */
  lemma PLenStateIff(p: A.Credentials, bs: seq<byte>)
    requires p.state == A.PLen
    ensures A.Parsed(p, bs).st.state == A.Done <==> bs != [] && |bs| >= 1 + Field(bs[0])
    ensures A.Parsed(p, bs).st.state != A.UnsupportedVersion
  {
    if bs != [] {
      AuthOnward(p, bs);
      PasswdStateIff(A.Next(p, bs[0]), bs[1..]);
    }
  }

  lemma {:induction false} UNameStateIff(p: A.Credentials, bs: seq<byte>)
    requires p.state == A.UName && InField(p)
    ensures A.Parsed(p, bs).st.state == A.Done <==>
            |bs| > Missing(p) && |bs| >= Missing(p) + 1 + Field(bs[Missing(p)])
    ensures A.Parsed(p, bs).st.state != A.UnsupportedVersion
    decreases |bs|
  {
    if bs != [] {
      AuthOnward(p, bs);
      var q := A.Next(p, bs[0]);
      if Missing(p) > 1 {
        UNameStateIff(q, bs[1..]);
      } else {
        PLenStateIff(q, bs[1..]);
      }
    }
  }

  lemma CredentialsStateIff(bs: seq<byte>)
    ensures A.Parsed(A.INIT, bs).st.state == A.Done <==> CredentialsComplete(bs)
    ensures A.Parsed(A.INIT, bs).st.state == A.UnsupportedVersion <==> WrongVersion(bs, 1)
  {
    if bs != [] {
      AuthOnward(A.INIT, bs);
      if bs[0] == 1 && |bs| >= 2 {
        var p := A.Next(A.INIT, 1);
        AuthOnward(p, bs[1..]);
        var rest := bs[1..][1..];
        assert rest == bs[2..];
        UNameStateIff(A.Next(p, bs[1]), rest);
        var u := Field(bs[1]);
        assert |rest| > u ==> rest[u] == bs[2 + u];
      }
    }
  }

  // ---------------------------------------------------------------- the request

  predicate RequestComplete(bs: seq<byte>) {
    && |bs| >= 4 && bs[0] == 5
    && (|| (bs[3] == R.IPV4 && |bs| >= 10)
        || (bs[3] == R.IPV6 && |bs| >= 22)
        || (bs[3] == R.DOMAIN && |bs| >= 5 && |bs| >= 7 + Field(bs[4])))
  }

  predicate WrongType(bs: seq<byte>) {
    |bs| >= 4 && bs[0] == 5 && bs[3] !in {R.IPV4, R.IPV6, R.DOMAIN}
  }

  lemma RequestOnward(p: R.Req, bs: seq<byte>)
    requires bs != []
    ensures var q := R.Next(p, bs[0]);
            R.Parsed(p, bs).st == if R.IsDone(q) then q else R.Parsed(q, bs[1..]).st
  {
    assert R.Feeder()(p, bs[0]) == R.Next(p, bs[0]);
  }

  function MissingPort(p: R.Req): nat
    requires p.state == R.DstPort && p.n == 2 && p.i < 2
  {
    2 - p.i
  }

  lemma {:induction false} PortStateIff(p: R.Req, bs: seq<byte>)
    requires p.state == R.DstPort && p.n == 2 && p.i < 2
    ensures R.Parsed(p, bs).st.state == if |bs| >= MissingPort(p) then R.Done else R.DstPort
    decreases |bs|
  {
    if bs != [] {
      RequestOnward(p, bs);
      if p.i == 0 {
        PortStateIff(R.Next(p, bs[0]), bs[1..]);
      }
    }
  }

  lemma {:induction false} AddressStateIff(p: R.Req, bs: seq<byte>)
    requires p.state == R.DstAddr && (p.i == 0 || p.i < p.n)
    ensures R.Parsed(p, bs).st.state == R.Done <==> |bs| >= Field(p.n) - p.i + 2
    ensures !R.Errored(R.Parsed(p, bs).st)
    decreases |bs|
  {
    if bs != [] {
      RequestOnward(p, bs);
      var q := R.Next(p, bs[0]);
      if Field(p.n) - p.i > 1 {
        AddressStateIff(q, bs[1..]);
      } else {
        PortStateIff(q, bs[1..]);
      }
    }
  }

  /** From the type of the address on. */
  lemma TypeStateIff(p: R.Req, bs: seq<byte>)
    requires p.state == R.Atyp
    ensures R.Parsed(p, bs).st.state == R.Done <==>
            bs != [] && (|| (bs[0] == R.IPV4 && |bs| >= 7) || (bs[0] == R.IPV6 && |bs| >= 19)
                         || (bs[0] == R.DOMAIN && |bs| >= 2 && |bs| >= 4 + Field(bs[1])))
    ensures R.Parsed(p, bs).st.state == R.UnsupportedAtyp <==> bs != [] && bs[0] !in {R.IPV4, R.IPV6, R.DOMAIN}
    ensures R.Parsed(p, bs).st.state != R.UnsupportedVersion
  {
    if bs != [] {
      RequestOnward(p, bs);
      var q := R.Next(p, bs[0]);
      if bs[0] == R.DOMAIN {
        if |bs| >= 2 {
          RequestOnward(q, bs[1..]);
          AddressStateIff(R.Next(q, bs[1]), bs[1..][1..]);
        }
      } else if bs[0] == R.IPV4 || bs[0] == R.IPV6 {
        AddressStateIff(q, bs[1..]);
      }
    }
  }

  lemma RequestStateIff(bs: seq<byte>)
    ensures R.Parsed(R.INIT, bs).st.state == R.Done <==> RequestComplete(bs)
    ensures R.Parsed(R.INIT, bs).st.state == R.UnsupportedVersion <==> WrongVersion(bs, 5)
    ensures R.Parsed(R.INIT, bs).st.state == R.UnsupportedAtyp <==> WrongType(bs)
  {
    if bs != [] {
      RequestOnward(R.INIT, bs);
      if bs[0] == 5 && |bs| >= 2 {
        var p1 := R.Next(R.INIT, 5);
        RequestOnward(p1, bs[1..]);
        var p2 := R.Next(p1, bs[1]);
        assert bs[1..][1..] == bs[2..];
        if |bs| >= 3 {
          RequestOnward(p2, bs[2..]);
          assert bs[2..][1..] == bs[3..];
          TypeStateIff(R.Next(p2, bs[2]), bs[3..]);
        }
      }
    }
  }
}
