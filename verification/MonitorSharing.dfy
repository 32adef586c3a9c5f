/**
 * Two management requests parsed at once. The parsers share the two length bytes and the length of
 * the user name; this module says exactly when one of them is disturbed by the other.
 */
module MonitorSharing {
  import opened Bytes
  import opened Monitor

  datatype Duo = Duo(a: Mon, b: Mon, s: Statics)

  /** A byte for one of the two parsers. */
  datatype Turn = Turn(mine: bool, c: byte)

  function Take(d: Duo, t: Turn): Duo {
    if t.mine then
      var x := Next(Machine(d.a, d.s), t.c);
      Duo(x.m, d.b, x.s)
    else
      var x := Next(Machine(d.b, d.s), t.c);
      Duo(d.a, x.m, x.s)
  }

  function Play(d: Duo, turns: seq<Turn>): Duo
    decreases |turns|
  {
    if turns == [] then d else Play(Take(d, turns[0]), turns[1..])
  }

  /** The first parser with nobody else about. */
  function AloneOnce(x: Machine, t: Turn): Machine {
    if t.mine then Next(x, t.c) else x
  }

  function Alone(x: Machine, turns: seq<Turn>): Machine
    decreases |turns|
  {
    if turns == [] then x else Alone(AloneOnce(x, turns[0]), turns[1..])
  }

  predicate TakesPair(m: Mon) {
    m.target == ADD_USER || m.target == ADD_ADMIN
  }

  predicate ReadsLength(m: Mon) {
    m.state == Dlen && m.i + 1 >= m.len
  }

  predicate StoresSecret(m: Mon, c: byte) {
    m.state == Data && TakesPair(m) && m.separated && Alnum(c)
  }

  /** What the parser reads of the shared variables at this byte is what it left there itself. */
  predicate Agrees(x: Machine, c: byte, s: Statics) {
    && (ReadsLength(x.m) ==> |s.combined| == |x.s.combined| == 2 && s.combined[0] == x.s.combined[0])
    && (StoresSecret(x.m, c) ==> s.userLen == x.s.userLen)
  }

  predicate Undisturbed(d: Duo, x: Machine, turns: seq<Turn>)
    decreases |turns|
  {
    turns == [] ||
    (&& (turns[0].mine ==> Agrees(x, turns[0].c, d.s))
     && Undisturbed(Take(d, turns[0]), AloneOnce(x, turns[0]), turns[1..]))
  }

  // ---------------------------------------------------------------- while nothing was disturbed

  predicate Over(m: Mon) {
    m.state !in {Version, Token, Method, Target, Dlen, Data}
  }

  /** The length was read, or the parser will not get that far. */
  predicate Past(m: Mon) {
    m.state !in {Version, Token, Method, Target, Dlen}
  }

  /** A parser that will not store the length of a user name any more. */
  predicate Sealed(m: Mon) {
    Over(m) || (m.state == Data && TakesPair(m) && m.separated)
  }

  /** The next place of the secret; nothing was stored from there on. */
  function Slot(x: Machine): int {
    if x.m.separated then FIELD + (x.m.i - x.s.userLen) else FIELD
  }

  ghost predicate ZeroFrom(data: seq<byte>, at: int) {
    |data| == DATA_SIZE && FIELD <= at && forall q :: at <= q < DATA_SIZE ==> data[q] == 0
  }

  /** What holds of a parser on its own, up to its end, when its parameters fit their array. */
  ghost predicate Tidy(x: Machine) {
    && |x.s.combined| == 2 && |x.m.data| == DATA_SIZE
    && (x.m.state == Dlen ==> x.m.len == 2 && x.m.i < 2)
    && (x.m.separated ==> x.m.state == BadData || (x.m.state == Data && TakesPair(x.m)))
    && (x.m.state == Data && TakesPair(x.m) ==>
          && x.m.len == x.m.dlen && (x.m.i == 0 || x.m.i < x.m.len)
          && (x.m.separated ==> 1 <= x.s.userLen <= x.m.i))
    && (!Past(x.m) || (x.m.state == Data && TakesPair(x.m) && x.m.dlen <= 255) ==> ZeroFrom(x.m.data, Slot(x)))
  }

  lemma DlenTidy(x: Machine, c: byte)
    requires Tidy(x) && x.m.state == Dlen
    ensures Tidy(Next(x, c))
  {
  }

  lemma PairTidy(x: Machine, c: byte)
    requires Tidy(x) && x.m.state == Data && TakesPair(x.m)
    ensures Tidy(Next(x, c))
  {
  }

  lemma TidyNext(x: Machine, c: byte)
    requires Tidy(x)
    ensures Tidy(Next(x, c))
  {
    if x.m.state == Dlen {
      DlenTidy(x, c);
    } else if x.m.state == Data && TakesPair(x.m) {
      PairTidy(x, c);
    }
    hide ZeroFrom;
  }

  /** The step depends on the shared variables only through what it reads. */
  lemma SameStep(x: Machine, c: byte, s: Statics)
    requires Tidy(x) && |s.combined| == 2 && Agrees(x, c, s)
    ensures Next(Machine(x.m, s), c).m == Next(x, c).m
  {
  }

  /** Who wrote the shared length last: the parser itself, or one that will not do so again. */
  ghost predicate Settled(m: Mon, s: Statics, own: Statics, other: Mon) {
    m.state == Data && TakesPair(m) && m.separated ==> s.userLen == own.userLen || Sealed(other)
  }

  lemma SettledMine(x: Machine, c: byte, s: Statics, other: Mon)
    requires Tidy(x) && |s.combined| == 2 && Agrees(x, c, s) && Settled(x.m, s, x.s, other)
    ensures var y := Next(x, c); Settled(y.m, Next(Machine(x.m, s), c).s, y.s, other)
    ensures |Next(Machine(x.m, s), c).s.combined| == 2
  {
  }

  lemma OtherMoves(other: Mon, c: byte, s: Statics)
    requires |s.combined| == 2
    ensures var y := Next(Machine(other, s), c);
            && |y.s.combined| == 2
            && (y.s.userLen == s.userLen || Sealed(y.m))
            && (Sealed(other) ==> Sealed(y.m) && y.s.userLen == s.userLen)
  {
  }

  // ---------------------------------------------------------------- after the first disturbance

  /** Two parsers that have read different lengths. */
  predicate LengthsApart(m: Mon, n: Mon) {
    m.dlen != n.dlen && Past(m) && Past(n)
  }

  lemma PastKeepsLength(x: Machine, c: byte)
    requires Past(x.m)
    ensures Past(Next(x, c).m) && Next(x, c).m.dlen == x.m.dlen
  {
  }

  /** Two parsers in the middle of the same secret, which they put in different places. */
  ghost predicate SecretsApart(m: Mon, u: nat, x: Machine) {
    && m == x.m.(data := m.data) && |m.data| == |x.m.data| == DATA_SIZE
    && (if Over(x.m) then m.data != x.m.data
        else
          && x.m.state == Data && TakesPair(x.m) && x.m.separated && x.m.i < x.m.len <= 255 && 1 <= x.s.userLen < x.m.i
          && MissesOne(m.data, x.m.data, u, x.s.userLen, x.m.i))
  }

  /** A byte that is there is not here, and will not come: stores go past it, or stay below it. */
  ghost predicate MissesOne(here: seq<byte>, there: seq<byte>, u: nat, own: nat, i: nat)
    requires |here| == |there| == DATA_SIZE
  {
    if u < own then exists p :: FIELD <= p < FIELD + (i - own) && p < DATA_SIZE && there[p] != 0 && here[p] == 0
    else
      var last := FIELD + (i - own) - 1;
      u > own && FIELD <= last < DATA_SIZE && there[last] != 0 && forall q :: last <= q < DATA_SIZE ==> here[q] == 0
  }

  lemma MissesStill(here: seq<byte>, there: seq<byte>, u: nat, own: nat, i: nat, c: byte)
    requires |here| == |there| == DATA_SIZE && 1 <= own < i < 255 && c != 0
    requires MissesOne(here, there, u, own, i)
    ensures MissesOne(Store(here, FIELD + (i - u), c), Store(there, FIELD + (i - own), c), u, own, i + 1)
  {
    if u < own {
      var p :| FIELD <= p < FIELD + (i - own) && p < DATA_SIZE && there[p] != 0 && here[p] == 0;
      assert Store(there, FIELD + (i - own), c)[p] != 0 && Store(here, FIELD + (i - u), c)[p] == 0;
    }
  }

  lemma MissesFirst(data: seq<byte>, u: nat, own: nat, i: nat, c: byte)
    requires |data| == DATA_SIZE && 1 <= own <= i < 255 && c != 0 && u != own
    requires ZeroFrom(data, FIELD + (i - own))
    ensures MissesOne(Store(data, FIELD + (i - u), c), Store(data, FIELD + (i - own), c), u, own, i + 1)
  {
    if u < own {
      var p := FIELD + (i - own);
      assert Store(data, FIELD + (i - own), c)[p] != 0 && Store(data, FIELD + (i - u), c)[p] == 0;
    }
  }

  lemma MissingDiffers(here: seq<byte>, there: seq<byte>, u: nat, own: nat, i: nat)
    requires |here| == |there| == DATA_SIZE && 1 <= own < i <= 255 && MissesOne(here, there, u, own, i)
    ensures here != there
    ensures Store(here, FIELD + i, 0) != Store(there, FIELD + i, 0)
  {
    var p :| FIELD <= p < FIELD + (i - own) && p < DATA_SIZE && there[p] != 0 && here[p] == 0;
    assert Store(there, FIELD + i, 0)[p] != 0 && Store(here, FIELD + i, 0)[p] == 0;
  }

  lemma SecretsStayApart(m: Mon, s: Statics, x: Machine, c: byte)
    requires SecretsApart(m, s.userLen, x)
    ensures SecretsApart(Next(Machine(m, s), c).m, s.userLen, Next(x, c)) && Next(Machine(m, s), c).s == s
    ensures Next(x, c).s == x.s
  {
    hide MissesOne, Next;
    if Over(x.m) {
      OverRests(Machine(m, s), c);
      OverRests(x, c);
    } else {
      PairStep(Machine(m, s), c);
      PairStep(x, c);
      MissingDiffers(m.data, x.m.data, s.userLen, x.s.userLen, x.m.i);
      if Alnum(c) {
        var here := Store(m.data, FIELD + (x.m.i - s.userLen), c);
        var there := Store(x.m.data, FIELD + (x.m.i - x.s.userLen), c);
        MissesStill(m.data, x.m.data, s.userLen, x.s.userLen, x.m.i, c);
        MissingDiffers(here, there, s.userLen, x.s.userLen, x.m.i + 1);
      }
    }
  }

  lemma OverRests(x: Machine, c: byte)
    requires Over(x.m)
    ensures Next(x, c) == x
  {
  }

  lemma PairStep(x: Machine, c: byte)
    requires x.m.state == Data && TakesPair(x.m)
    ensures Next(x, c) == NextPair(x, c)
  {
  }

  /** The first byte of the secret that goes to the wrong place. */
  lemma SecretsPart(x: Machine, s: Statics, c: byte)
    requires Tidy(x) && StoresSecret(x.m, c) && x.m.dlen <= 255 && s.userLen != x.s.userLen
    ensures SecretsApart(Next(Machine(x.m, s), c).m, s.userLen, Next(x, c)) && Next(Machine(x.m, s), c).s == s
  {
    var here := Store(x.m.data, FIELD + (x.m.i - s.userLen), c);
    var there := Store(x.m.data, FIELD + (x.m.i - x.s.userLen), c);
    MissesFirst(x.m.data, s.userLen, x.s.userLen, x.m.i, c);
    MissingDiffers(here, there, s.userLen, x.s.userLen, x.m.i + 1);
    hide MissesOne, ZeroFrom;
  }

  lemma LengthsPart(x: Machine, s: Statics, c: byte)
    requires Tidy(x) && |s.combined| == 2 && ReadsLength(x.m) && s.combined[0] != x.s.combined[0]
    ensures LengthsApart(Next(Machine(x.m, s), c).m, Next(x, c).m)
  {
    LengthIffUndisturbed(x.m, s, x.s.combined[0], c);
    LengthIffUndisturbed(x.m, x.s, x.s.combined[0], c);
  }

  ghost predicate Apart(d: Duo, x: Machine) {
    LengthsApart(d.a, x.m) || (SecretsApart(d.a, d.s.userLen, x) && Sealed(d.b))
  }

  lemma ApartDiffers(d: Duo, x: Machine)
    requires Apart(d, x)
    ensures d.a != x.m
  {
    if SecretsApart(d.a, d.s.userLen, x) && !Over(x.m) {
      MissingDiffers(d.a.data, x.m.data, d.s.userLen, x.s.userLen, x.m.i);
    }
  }

  lemma ApartTurn(d: Duo, x: Machine, t: Turn)
    requires Apart(d, x) && |d.s.combined| == 2
    ensures Apart(Take(d, t), AloneOnce(x, t)) && |Take(d, t).s.combined| == 2
  {
    hide SecretsApart, Next;
    CombinedStays(Machine(d.a, d.s), t.c);
    if LengthsApart(d.a, x.m) {
      PastKeepsLength(x, t.c);
      PastKeepsLength(Machine(d.a, d.s), t.c);
    } else if t.mine {
      SecretsStayApart(d.a, d.s, x, t.c);
    }
    OtherMoves(d.b, t.c, d.s);
  }

  lemma CombinedStays(x: Machine, c: byte)
    requires |x.s.combined| == 2
    ensures |Next(x, c).s.combined| == 2
  {
  }

  lemma {:induction false} ApartStays(d: Duo, x: Machine, turns: seq<Turn>)
    requires Apart(d, x) && |d.s.combined| == 2
    ensures Play(d, turns).a != Alone(x, turns).m
    decreases |turns|
  {
    hide Apart, Next;
    if turns == [] {
      ApartDiffers(d, x);
    } else {
      ApartTurn(d, x, turns[0]);
      ApartStays(Take(d, turns[0]), AloneOnce(x, turns[0]), turns[1..]);
    }
  }

  // ---------------------------------------------------------------- the exact condition

  lemma {:induction false} LengthIsFinal(x: Machine, turns: seq<Turn>)
    requires Past(x.m)
    ensures Alone(x, turns).m.dlen == x.m.dlen
    decreases |turns|
  {
    hide Next, Past;
    if turns != [] {
      PastKeepsLength(x, turns[0].c);
      LengthIsFinal(AloneOnce(x, turns[0]), turns[1..]);
    }
  }

  /** A disturbed byte sets the parsers apart for good. */
  lemma Parts(d: Duo, x: Machine, t: Turn, rest: seq<Turn>)
    requires d.a == x.m && Tidy(x) && |d.s.combined| == 2 && Settled(x.m, d.s, x.s, d.b)
    requires t.mine && !Agrees(x, t.c, d.s) && Alone(Next(x, t.c), rest).m.dlen <= 255
    ensures Apart(Take(d, t), AloneOnce(x, t)) && |Take(d, t).s.combined| == 2
  {
    CombinedStays(Machine(d.a, d.s), t.c);
    hide Next, SecretsApart, Alone;
    if ReadsLength(x.m) {
      LengthsPart(x, d.s, t.c);
    } else {
      PastKeepsLength(x, t.c);
      LengthIsFinal(Next(x, t.c), rest);
      SecretsPart(x, d.s, t.c);
    }
  }

  lemma {:induction false} SharingFrom(d: Duo, x: Machine, turns: seq<Turn>)
    requires d.a == x.m && Tidy(x) && |d.s.combined| == 2 && Settled(x.m, d.s, x.s, d.b)
    requires Alone(x, turns).m.dlen <= 255
    ensures Play(d, turns).a == Alone(x, turns).m <==> Undisturbed(d, x, turns)
    decreases |turns|
  {
    hide Next, Tidy, Agrees, Settled, Apart, Sealed;
    if turns != [] {
      var t, rest := turns[0], turns[1..];
      if !t.mine {
        OtherMoves(d.b, t.c, d.s);
        assert Settled(x.m, Take(d, t).s, x.s, Take(d, t).b) by { SettledTheirs(x.m, d.s, x.s, d.b, t.c); }
        SharingFrom(Take(d, t), x, rest);
      } else if Agrees(x, t.c, d.s) {
        TidyNext(x, t.c);
        SameStep(x, t.c, d.s);
        SettledMine(x, t.c, d.s, d.b);
        SharingFrom(Take(d, t), AloneOnce(x, t), rest);
      } else {
        Parts(d, x, t, rest);
        ApartStays(Take(d, t), AloneOnce(x, t), rest);
      }
    }
  }

  lemma SettledTheirs(m: Mon, s: Statics, own: Statics, other: Mon, c: byte)
    requires |s.combined| == 2 && Settled(m, s, own, other)
    ensures var y := Next(Machine(other, s), c); Settled(m, y.s, own, y.m)
  {
    OtherMoves(other, c, s);
    hide Next, Sealed;
  }

  /**
   * Two requests parsed at once, byte by byte in any order: the first one comes out as it would have
   * alone if and only if the length byte it reads back and the name length it uses are always the ones
   * it left in the shared variables.
   */
  lemma SharedIffUndisturbed(s: Statics, turns: seq<Turn>)
    requires |s.combined| == 2 && Alone(Machine(FRESH, s), turns).m.dlen <= 255
    ensures Play(Duo(FRESH, FRESH, s), turns).a == Alone(Machine(FRESH, s), turns).m <==>
            Undisturbed(Duo(FRESH, FRESH, s), Machine(FRESH, s), turns)
  {
    SharingFrom(Duo(FRESH, FRESH, s), Machine(FRESH, s), turns);
  }

  /** The bytes the first parser was fed. */
  function Mine(turns: seq<Turn>): seq<byte> {
    if turns == [] then [] else (if turns[0].mine then [turns[0].c] else []) + Mine(turns[1..])
  }

  lemma {:induction false} OverStays(x: Machine, turns: seq<Turn>)
    requires Over(x.m)
    ensures Alone(x, turns) == x
    decreases |turns|
  {
    if turns != [] {
      OverStays(x, turns[1..]);
    }
  }

  /** Alone, the first parser does what monitor_consume does with its bytes. */
  lemma {:induction false} AloneIsParsed(x: Machine, turns: seq<Turn>)
    requires !Over(x.m)
    ensures Alone(x, turns) == Parsed(x, Mine(turns)).st
    decreases |turns|
  {
    hide Next;
    if turns != [] {
      var t, rest := turns[0], turns[1..];
      if !t.mine {
        AloneIsParsed(x, rest);
        assert Mine(turns) == Mine(rest);
      } else if IsDone(Next(x, t.c)) {
        LastParsed(x, t.c, Mine(rest));
        OverStays(Next(x, t.c), rest);
      } else {
        StepParsed(x, t.c, Mine(rest));
        AloneIsParsed(Next(x, t.c), rest);
      }
    }
  }

  /** A request of the client, parsed while another one is: the client is understood if nothing was disturbed. */
  lemma UndisturbedRoundTrip(token: seq<byte>, r: Request, s: Statics, turns: seq<Turn>)
    requires |token| == TOKEN_SIZE && r.WellFormed() && |s.combined| == 2 && Mine(turns) == Encode(token, r)
    requires Undisturbed(Duo(FRESH, FRESH, s), Machine(FRESH, s), turns)
    ensures Says(Play(Duo(FRESH, FRESH, s), turns).a, token, r)
  {
    hide Undisturbed, Play, Alone, Parsed, Encode;
    AloneIsParsed(Machine(FRESH, s), turns);
    assert Encode(token, r) + [] == Encode(token, r);
    RequestRoundTrip(token, r, s, []);
    SharedIffUndisturbed(s, turns);
  }

  // ---------------------------------------------------------------- a name length that is overwritten

  function Turns(mine: bool, bs: seq<byte>): (r: seq<Turn>)
    ensures |r| == |bs|
  {
    if bs == [] then [] else [Turn(mine, bs[0])] + Turns(mine, bs[1..])
  }

  /** The bytes of the second parser. */
  function Theirs(turns: seq<Turn>): seq<byte> {
    if turns == [] then [] else (if turns[0].mine then [] else [turns[0].c]) + Theirs(turns[1..])
  }

  lemma {:induction false} FedAll(mine: bool, bs: seq<byte>, more: seq<Turn>)
    ensures Mine(Turns(mine, bs) + more) == (if mine then bs else []) + Mine(more)
    ensures Theirs(Turns(mine, bs) + more) == (if mine then [] else bs) + Theirs(more)
    decreases |bs|
  {
    var all := Turns(mine, bs) + more;
    if bs == [] {
      assert all == more;
    } else {
      assert all[1..] == Turns(mine, bs[1..]) + more;
      FedAll(mine, bs[1..], more);
    }
  }

  lemma GoesOn(x: Machine, bs: seq<byte>)
    requires bs != [] && !Over(Parsed(x, bs).st.m)
    ensures !IsDone(Next(x, bs[0]))
  {
    assert Feeder()(x, bs[0]) == Next(x, bs[0]);
    hide Next;
  }

  /** A stretch of bytes for one parser, which it does not complete. */
  lemma {:induction false} PlayStretch(d: Duo, mine: bool, bs: seq<byte>, more: seq<Turn>)
    requires var x := Machine(if mine then d.a else d.b, d.s); !Over(x.m) && !Over(Parsed(x, bs).st.m)
    ensures var y := Parsed(Machine(if mine then d.a else d.b, d.s), bs).st;
            Play(d, Turns(mine, bs) + more) == Play(if mine then Duo(y.m, d.b, y.s) else Duo(d.a, y.m, y.s), more)
    decreases |bs|
  {
    hide Next;
    var all, x := Turns(mine, bs) + more, Machine(if mine then d.a else d.b, d.s);
    if bs == [] {
      assert all == more;
    } else {
      assert all[0] == Turn(mine, bs[0]) && all[1..] == Turns(mine, bs[1..]) + more;
      assert bs == [bs[0]] + bs[1..];
      GoesOn(x, bs);
      StepParsed(x, bs[0], bs[1..]);
      PlayStretch(Take(d, Turn(mine, bs[0])), mine, bs[1..], more);
    }
  }

  /** The fixed part of an addition of `n` bytes. */
  function Opening(token: seq<byte>, n: byte): seq<byte> {
    [1] + token + [CONFIG, ADD_USER, 0, n]
  }

  lemma OpeningParsed(token: seq<byte>, s: Statics, n: byte)
    requires |token| == TOKEN_SIZE && |s.combined| == 2
    ensures Parsed(Machine(FRESH, s), Opening(token, n)).st ==
            Machine(AtData(token, ADD_USER, n), Statics([0, n], s.userLen))
  {
    hide Next;
    assert [1] + token + [CONFIG, ADD_USER, 0, n] == [1] + token + ([CONFIG, ADD_USER, n / 256, n % 256] + []);
    HeadParsed(token, s, [CONFIG, ADD_USER, n / 256, n % 256] + []);
    ConfigParsed(token, s, ADD_USER, n, []);
  }

  /** `user NUL` of the announced parameters. */
  lemma NameParsed(token: seq<byte>, s: Statics, user: seq<byte>, n: byte)
    requires AllAlnum(user) && 1 <= |user| && |user| + 1 < n
    ensures Parsed(Machine(AtData(token, ADD_USER, n), s), user + [0]).st ==
            Machine(AtData(token, ADD_USER, n).(i := |user| + 1, separated := true, data := Fields(user, [])),
                    s.(userLen := |user| + 1))
  {
    var x := Machine(AtData(token, ADD_USER, n), s);
    FieldsEmpty();
    assert user[..0] == [] && user[0..] == user;
    UserFills(x, user, [0]);
    var y := x.(m := x.m.(i := |user|, data := Fields(user, [])));
    FieldsZero(user, [], |user|);
    assert [0] + [] == [0];
    StepParsed(y, 0, []);
  }

  /** Two clients add a user at once; the first is sent whole, the second up to the end of its name. */
  function Crossed(token: seq<byte>, other: seq<byte>): seq<Turn> {
    Turns(true, Opening(token, 4)) + (Turns(false, Opening(other, 3)) + CrossedEnd())
  }

  lemma CrossedEndBytes()
    ensures Mine(CrossedEnd()) == [97, 98, 0, 100] && Theirs(CrossedEnd()) == [99, 0]
  {
    FedAll(true, [97, 98, 0], Turns(false, [99, 0]) + (Turns(true, [100]) + []));
    FedAll(false, [99, 0], Turns(true, [100]) + []);
    FedAll(true, [100], []);
    hide Turns;
  }

  lemma CrossedBytes(token: seq<byte>, other: seq<byte>)
    requires |token| == |other| == TOKEN_SIZE
    ensures Mine(Crossed(token, other)) == Encode(token, AddUser([97, 98], [100]))
    ensures Theirs(Crossed(token, other)) + [101] == Encode(other, AddUser([99], [101]))
  {
    hide Turns, CrossedEnd, Mine, Theirs, Opening, Encode;
    FedAll(true, Opening(token, 4), Turns(false, Opening(other, 3)) + CrossedEnd());
    FedAll(false, Opening(other, 3), CrossedEnd());
    CrossedEndBytes();
    assert [] + (Opening(other, 3) + [99, 0]) + [101] == Opening(other, 3) + [99, 0, 101];
    assert Opening(token, 4) + ([] + [97, 98, 0, 100]) == Opening(token, 4) + [97, 98, 0, 100];
    OpeningEncodes(token, [97, 98], [100], 4);
    OpeningEncodes(other, [99], [101], 3);
    assert [97, 98] + [0] + [100] == [97, 98, 0, 100] && [99] + [0] + [101] == [99, 0, 101];
  }

  lemma OpeningEncodes(token: seq<byte>, user: seq<byte>, pass: seq<byte>, n: byte)
    requires n == |user| + 1 + |pass|
    ensures Opening(token, n) + (user + [0] + pass) == Encode(token, AddUser(user, pass))
  {
  }

  /**
   * The length of the name can be overwritten as the bytes of the length can: the first client asks for
   * user `ab` with password `d`, both requests keep their lengths, and the server reads an empty password.
   */
  lemma SharedNameLengthIsOverwritten(token: seq<byte>, other: seq<byte>, s: Statics)
    requires |token| == |other| == TOKEN_SIZE && |s.combined| == 2
    ensures Mine(Crossed(token, other)) == Encode(token, AddUser([97, 98], [100]))
    ensures Theirs(Crossed(token, other)) + [101] == Encode(other, AddUser([99], [101]))
    ensures var d := Play(Duo(FRESH, FRESH, s), Crossed(token, other));
            && d.a.state == Done && d.a.dlen == 4 && d.b.dlen == 3
            && |d.a.data| == DATA_SIZE && UserOf(d.a) == [97, 98] && SecretOf(d.a) == []
  {
    CrossedBytes(token, other);
    hide Turns, Play, Mine, Theirs, UserOf, SecretOf, Encode;
    CrossedLengths(token, other, s);
    CrossedNames(token, other, Statics([0, 3], s.userLen));
  }

  ghost function AfterLengths(token: seq<byte>, other: seq<byte>, s: Statics): Duo {
    Duo(AtData(token, ADD_USER, 4), AtData(other, ADD_USER, 3), s)
  }

  function CrossedEnd(): seq<Turn> {
    Turns(true, [97, 98, 0]) + (Turns(false, [99, 0]) + (Turns(true, [100]) + []))
  }

  lemma CrossedLengths(token: seq<byte>, other: seq<byte>, s: Statics)
    requires |token| == |other| == TOKEN_SIZE && |s.combined| == 2
    ensures Play(Duo(FRESH, FRESH, s), Crossed(token, other)) ==
            Play(AfterLengths(token, other, Statics([0, 3], s.userLen)), CrossedEnd())
  {
    hide Turns, Parsed, Opening, Play, Next, CrossedEnd;
    OpeningParsed(token, s, 4);
    var rest := Turns(false, Opening(other, 3)) + CrossedEnd();
    PlayStretch(Duo(FRESH, FRESH, s), true, Opening(token, 4), rest);
    var s1 := Statics([0, 4], s.userLen);
    OpeningParsed(other, s1, 3);
    PlayStretch(Duo(AtData(token, ADD_USER, 4), FRESH, s1), false, Opening(other, 3), CrossedEnd());
  }

  lemma CrossedNames(token: seq<byte>, other: seq<byte>, s: Statics)
    requires |token| == |other| == TOKEN_SIZE && |s.combined| == 2
    ensures var d := Play(AfterLengths(token, other, s), CrossedEnd());
            && d.a.state == Done && d.a.dlen == 4 && d.b.dlen == 3
            && |d.a.data| == DATA_SIZE && UserOf(d.a) == [97, 98] && SecretOf(d.a) == []
  {
    hide Turns, Parsed, Play, Next, UserOf, SecretOf, Fields;
    var a, b := AtData(token, ADD_USER, 4), AtData(other, ADD_USER, 3);
    var rest := Turns(false, [99, 0]) + (Turns(true, [100]) + []);
    assert [97, 98] + [0] == [97, 98, 0] && [99] + [0] == [99, 0];
    NameParsed(token, s, [97, 98], 4);
    PlayStretch(Duo(a, b, s), true, [97, 98, 0], rest);
    var a1 := a.(i := 3, separated := true, data := Fields([97, 98], []));
    NameParsed(other, s.(userLen := 3), [99], 3);
    PlayStretch(Duo(a1, b, s.(userLen := 3)), false, [99, 0], Turns(true, [100]) + []);
    var b1 := b.(i := 2, separated := true, data := Fields([99], []));
    LastByte(Duo(a1, b1, s.(userLen := 2)));
  }

  lemma LastByte(d: Duo)
    requires d.a.state == Data && d.a.target == ADD_USER && d.a.separated && d.a.i == 3 && d.a.len == d.a.dlen == 4
    requires d.a.data == Fields([97, 98], []) && d.s.userLen == 2
    ensures var e := Play(d, Turns(true, [100]) + []);
            && e.a.state == Done && e.a.dlen == 4 && e.b == d.b
            && |e.a.data| == DATA_SIZE && UserOf(e.a) == [97, 98] && SecretOf(e.a) == []
  {
    assert Turns(true, [100]) + [] == [Turn(true, 100)];
    var e := Play(d, [Turn(true, 100)]);
    assert e == Take(d, Turn(true, 100));
    CStringOf([97, 98], e.a.data[..FIELD]);
    CStringOf([], e.a.data[FIELD..]);
  }
}
