/** Exactly which bytes are a complete management request, and which are refused with which status. */
module MonitorErrors {
  import opened Bytes
  import opened Incremental
  import opened Monitor
  import opened MonitorClient

  predicate VersionWrong(bs: seq<byte>) {
    bs != [] && bs[0] != 1
  }

  /** Version, token and method are there. */
  predicate Headed(bs: seq<byte>) {
    |bs| >= 18 && bs[0] == 1
  }

  predicate MethodWrong(bs: seq<byte>) {
    Headed(bs) && bs[17] > 1
  }

  predicate TargetWrong(bs: seq<byte>) {
    Headed(bs) && |bs| >= 19 && bs[17] <= 1 && bs[18] > 4
  }

  predicate Query(bs: seq<byte>) {
    Headed(bs) && |bs| >= 19 && bs[17] == 0 && bs[18] <= 4
  }

  /** A configuration whose length is there too. */
  predicate Configures(bs: seq<byte>) {
    Headed(bs) && |bs| >= 21 && bs[17] == 1 && bs[18] <= 4
  }

  /** How many bytes of parameters are read: a length of zero still takes one. */
  function Announced(kind: byte, hi: byte, lo: byte): nat {
    if kind == TOGGLE || Word(hi, lo) == 0 then 1 else Word(hi, lo)
  }

  predicate Letters(s: seq<byte>) {
    forall i :: 0 <= i < |s| ==> Alnum(s[i])
  }

  /** Letters and digits with one NUL, which is not in front; `i` bytes came before, the NUL among them or not. */
  predicate PairText(s: seq<byte>, i: nat, separated: bool) {
    forall k :: 0 <= k < |s| ==>
      Alnum(s[k]) || (s[k] == 0 && !separated && i + k != 0 && forall j :: 0 <= j < k ==> s[j] != 0)
  }

  predicate Acceptable(kind: byte, s: seq<byte>) {
    if kind == TOGGLE then true
    else if kind == ADD_USER || kind == ADD_ADMIN then PairText(s, 0, false)
    else Letters(s)
  }

  function AtMost(s: seq<byte>, n: nat): seq<byte> {
    if |s| <= n then s else s[..n]
  }

  predicate DataWrong(bs: seq<byte>) {
    Configures(bs) && !Acceptable(bs[18], AtMost(bs[21..], Announced(bs[18], bs[19], bs[20])))
  }

  predicate RequestComplete(bs: seq<byte>) {
    Query(bs) || (Configures(bs) && !DataWrong(bs) && |bs| >= 21 + Announced(bs[18], bs[19], bs[20]))
  }

  lemma Onward(x: Machine, bs: seq<byte>)
    requires bs != []
    ensures var y := Next(x, bs[0]); Parsed(x, bs).st == if IsDone(y) then y else Parsed(y, bs[1..]).st
  {
    assert Feeder()(x, bs[0]) == Next(x, bs[0]);
  }

  // ---------------------------------------------------------------- the parameters

  function Left(m: Mon): nat
    requires m.i == 0 || m.i < m.len
  {
    if m.len == 0 then 1 else m.len - m.i
  }

  function Verdict(ok: bool, all: bool): State {
    if !ok then BadData else if all then Done else Data
  }

  /** What is seen of the parameters, first byte and rest. */
  lemma SeenOn(bs: seq<byte>, n: nat)
    requires bs != [] && n >= 1
    ensures AtMost(bs, n) == [bs[0]] + AtMost(bs[1..], n - 1)
  {
  }

  /** One byte of a name. */
  lemma NameStep(x: Machine, c: byte)
    requires x.m.state == Data && (x.m.target == DELETE_USER || x.m.target == DELETE_ADMIN)
    requires x.m.i == 0 || x.m.i < x.m.len
    ensures var y := Next(x, c);
            && Left(x.m) >= 1 && y.m.target == x.m.target
            && y.m.state == (if !Alnum(c) then BadData else if Left(x.m) == 1 then Done else Data)
            && (y.m.state == Data ==> y.m.i < y.m.len && Left(y.m) == Left(x.m) - 1)
  {
  }

  lemma {:induction false} NameStateIs(x: Machine, bs: seq<byte>)
    requires x.m.state == Data && (x.m.target == DELETE_USER || x.m.target == DELETE_ADMIN)
    requires x.m.i == 0 || x.m.i < x.m.len
    ensures Parsed(x, bs).st.m.state == Verdict(Letters(AtMost(bs, Left(x.m))), |bs| >= Left(x.m))
    decreases |bs|
  {
    hide Next, AtMost, Letters;
    var n := Left(x.m);
    if bs == [] {
      assert Letters([]) && AtMost(bs, n) == [] by { NothingSeen(n); }
    } else {
      Onward(x, bs);
      NameStep(x, bs[0]);
      SeenOn(bs, n);
      LettersOn(bs[0], AtMost(bs[1..], n - 1));
      if n == 1 {
        NoneSeen(bs[1..]);
      } else if Alnum(bs[0]) {
        NameStateIs(Next(x, bs[0]), bs[1..]);
      }
      hide Parsed;
    }
  }

  lemma NothingSeen(n: nat)
    ensures AtMost([], n) == [] && Letters([]) && forall i: nat, b :: PairText([], i, b)
  {
  }

  lemma NoneSeen(bs: seq<byte>)
    ensures AtMost(bs, 0) == [] && Letters([]) && forall i: nat, b :: PairText([], i, b)
  {
  }

  lemma LettersOn(c: byte, s: seq<byte>)
    ensures Letters([c] + s) <==> Alnum(c) && Letters(s)
  {
    var t := [c] + s;
    assert t[0] == c;
    forall i | 0 <= i < |s| ensures Letters(t) ==> Alnum(s[i]) {
      assert t[i + 1] == s[i];
    }
  }

  lemma PairOn(c: byte, s: seq<byte>, i: nat, separated: bool)
    ensures PairText([c] + s, i, separated) <==>
            (Alnum(c) || (c == 0 && !separated && i != 0)) && PairText(s, i + 1, separated || c == 0)
  {
    var t := [c] + s;
    assert t[0] == c;
    assert forall k :: 0 <= k < |s| ==> t[k + 1] == s[k];
    assert forall k :: 1 <= k < |t| ==> t[k] == s[k - 1];
    if PairText(t, i, separated) {
      forall k | 0 <= k < |s|
        ensures Alnum(s[k]) || (s[k] == 0 && !(separated || c == 0) && forall j :: 0 <= j < k ==> s[j] != 0)
      {
        assert Alnum(t[k + 1]) || (t[k + 1] == 0 && !separated && forall j :: 0 <= j < k + 1 ==> t[j] != 0);
        if !Alnum(s[k]) {
          assert t[0] != 0;
          forall j | 0 <= j < k ensures s[j] != 0 {
            assert t[j + 1] != 0;
          }
        }
      }
    }
    if (Alnum(c) || (c == 0 && !separated && i != 0)) && PairText(s, i + 1, separated || c == 0) {
      forall k | 0 <= k < |t|
        ensures Alnum(t[k]) || (t[k] == 0 && !separated && i + k != 0 && forall j :: 0 <= j < k ==> t[j] != 0)
      {
        if k > 0 && !Alnum(t[k]) {
          assert s[k - 1] == 0 && c != 0 && forall j :: 0 <= j < k - 1 ==> s[j] != 0;
        }
      }
    }
  }

  /** One byte of a pair. */
  lemma PairStep(x: Machine, c: byte)
    requires x.m.state == Data && (x.m.target == ADD_USER || x.m.target == ADD_ADMIN)
    requires x.m.i == 0 || x.m.i < x.m.len
    ensures var y := Next(x, c);
            var ok := Alnum(c) || (c == 0 && !x.m.separated && x.m.i != 0);
            && Left(x.m) >= 1 && y.m.target == x.m.target
            && y.m.state == (if !ok then BadData else if Left(x.m) == 1 then Done else Data)
            && (y.m.state == Data ==>
                  y.m.i == x.m.i + 1 < y.m.len && Left(y.m) == Left(x.m) - 1
                  && y.m.separated == (x.m.separated || c == 0))
  {
  }

  lemma {:induction false} PairStateIs(x: Machine, bs: seq<byte>)
    requires x.m.state == Data && (x.m.target == ADD_USER || x.m.target == ADD_ADMIN)
    requires x.m.i == 0 || x.m.i < x.m.len
    ensures Parsed(x, bs).st.m.state ==
            Verdict(PairText(AtMost(bs, Left(x.m)), x.m.i, x.m.separated), |bs| >= Left(x.m))
    decreases |bs|
  {
    hide Next, AtMost, PairText;
    var n := Left(x.m);
    if bs == [] {
      NothingSeen(n);
    } else {
      Onward(x, bs);
      PairStep(x, bs[0]);
      SeenOn(bs, n);
      PairOn(bs[0], AtMost(bs[1..], n - 1), x.m.i, x.m.separated);
      var y := Next(x, bs[0]);
      if n == 1 {
        NoneSeen(bs[1..]);
      } else if y.m.state == Data {
        PairStateIs(y, bs[1..]);
      }
      hide Parsed;
    }
  }

  lemma DataStateIs(token: seq<byte>, s: Statics, kind: byte, n: nat, bs: seq<byte>)
    requires kind <= 4 && n < 0x1_0000
    ensures var size := if kind == TOGGLE || n == 0 then 1 else n;
            Parsed(Machine(AtData(token, kind, n), s), bs).st.m.state ==
            Verdict(Acceptable(kind, AtMost(bs, size)), |bs| >= size)
  {
    var x := Machine(AtData(token, kind, n), s);
    if kind == TOGGLE {
      if bs != [] {
        Onward(x, bs);
      }
    } else if kind == ADD_USER || kind == ADD_ADMIN {
      PairStateIs(x, bs);
    } else {
      NameStateIs(x, bs);
    }
    hide Parsed;
  }

  // ---------------------------------------------------------------- the head

  lemma {:induction false} TokenWaits(x: Machine, bs: seq<byte>)
    requires x.m.state == Token && x.m.len == TOKEN_SIZE && x.m.i + |bs| < TOKEN_SIZE
    ensures Parsed(x, bs).st.m.state == Token
    decreases |bs|
  {
    if bs != [] {
      Onward(x, bs);
      TokenWaits(Next(x, bs[0]), bs[1..]);
    }
  }

  /** From the method on. */
  lemma VerbStateIs(token: seq<byte>, s: Statics, bs: seq<byte>)
    requires |token| == TOKEN_SIZE && |s.combined| == 2
    ensures var st := Parsed(AtVerb(token, s), bs).st.m.state;
            if bs == [] then st == Method
            else if bs[0] > 1 then st == BadMethod
            else if |bs| == 1 then st == Target
            else if bs[1] > 4 then st == BadTarget
            else if bs[0] == 0 then st == Done
            else if |bs| < 4 then st == Dlen
            else
              var size := Announced(bs[1], bs[2], bs[3]);
              st == Verdict(Acceptable(bs[1], AtMost(bs[4..], size)), |bs| >= 4 + size)
  {
    var x := AtVerb(token, s);
    if bs != [] {
      Onward(x, bs);
      var y := Next(x, bs[0]);
      if bs[0] <= 1 && |bs| > 1 {
        Onward(y, bs[1..]);
        if bs[0] == 1 && bs[1] <= 4 {
          if |bs| >= 4 {
            var n := Word(bs[2], bs[3]);
            assert bs == [CONFIG, bs[1], n / 256, n % 256] + bs[4..];
            ConfigParsed(token, s, bs[1], n, bs[4..]);
            DataStateIs(token, Statics([n / 256, n % 256], s.userLen), bs[1], n, bs[4..]);
          } else if |bs| == 3 {
            Onward(Next(y, bs[1]), bs[2..]);
          }
        }
      }
    }
    hide Acceptable, AtMost;
  }

  /** The whole request, by what has come of it. */
  lemma RequestStateIff(s: Statics, bs: seq<byte>)
    requires |s.combined| == 2
    ensures var st := Parsed(Machine(FRESH, s), bs).st.m.state;
            && (st == BadVersion <==> VersionWrong(bs))
            && (st == BadMethod <==> MethodWrong(bs))
            && (st == BadTarget <==> TargetWrong(bs))
            && (st == BadData <==> DataWrong(bs))
            && (st == Done <==> RequestComplete(bs))
            && (VersionWrong(bs) || MethodWrong(bs) || TargetWrong(bs) || DataWrong(bs) ==>
                  ErrorStatus(st) == if VersionWrong(bs) then 1 else if MethodWrong(bs) then 2
                                     else if TargetWrong(bs) then 3 else 4)
  {
    var x := Machine(FRESH, s);
    hide Acceptable, AtMost;
    if bs != [] {
      Onward(x, bs);
      if bs[0] == 1 {
        if |bs| < 17 {
          TokenWaits(Next(x, 1), bs[1..]);
        } else {
          var token, rest := bs[1..17], bs[17..];
          assert bs == [1] + token + rest;
          HeadParsed(token, s, rest);
          VerbStateIs(token, s, rest);
          assert |rest| >= 4 ==> rest[4..] == bs[21..];
        }
      }
    }
    hide Parsed;
  }
}
