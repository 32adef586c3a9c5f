/**
 * The management protocol: the request parser of monitor.c and its replies, against the encoder of
 * clientrequest.c and the decoder of clientresponse.c.
 */
module Monitor {
  import opened Bytes
  import opened Buffers
  import opened Incremental

  const TOKEN_SIZE := 16
  const FIELD := 256
  const DATA_SIZE := 512

  const GET: byte := 0
  const CONFIG: byte := 1
  const TOGGLE: byte := 0
  const ADD_USER: byte := 1
  const DELETE_USER: byte := 2
  const ADD_ADMIN: byte := 3
  const DELETE_ADMIN: byte := 4

  datatype State =
    | Version | Token | Method | Target | Dlen | Data
    | Done | BadVersion | BadMethod | BadTarget | BadData

  /**
   * The fields of one parser and of the request it fills. `data` is the union of the parameters as one
   * zeroed array: a user name at 0, a password or token at 256. Stores past its end are dropped.
   */
  datatype Mon = Mon(state: State, len: nat, i: nat, separated: bool,
                     token: seq<byte>, verb: byte, target: byte, dlen: nat, data: seq<byte>)

  /** The two file-level variables that all parsers share. */
  datatype Statics = Statics(combined: seq<byte>, userLen: nat)

  datatype Machine = Machine(m: Mon, s: Statics) {

    ghost predicate Valid() {
      && |m.token| == TOKEN_SIZE && |m.data| == DATA_SIZE && |s.combined| == 2
      && (m.state == Token ==> m.len == TOKEN_SIZE && m.i < m.len)
      && (m.state == Dlen ==> m.len == 2 && m.i < m.len)
      && (m.state == Dlen || m.state == Data ==> m.target <= 4)
      && (m.state == Data && m.target != TOGGLE ==> m.i == 0 || m.i < m.len)
      && m.len < 0x1_0000
      && (m.state == Data && m.separated ==> s.userLen <= m.i)
      && (m.separated ==> m.state == BadData || (m.state == Data && (m.target == ADD_USER || m.target == ADD_ADMIN)))
    }
  }

  const FRESH := Mon(Version, 0, 0, false, Zeros(TOKEN_SIZE), 0, 0, 0, Zeros(DATA_SIZE))

  predicate Alnum(c: byte) {
    97 <= c <= 122 || 65 <= c <= 90 || 48 <= c <= 57
  }

  function Word(hi: byte, lo: byte): nat {
    256 * hi + lo
  }

  function Next(x: Machine, c: byte): Machine {
    var m := x.m;
    match m.state
    case Version =>
      x.(m := if c == 1 then m.(state := Token, i := 0, len := TOKEN_SIZE) else m.(state := BadVersion))
    case Token =>
      x.(m := m.(token := Store(m.token, m.i, c), i := m.i + 1, state := if m.i + 1 >= m.len then Method else Token))
    case Method => x.(m := m.(verb := c, state := if c == GET || c == CONFIG then Target else BadMethod))
    case Target =>
      x.(m := if c > 4 then m.(state := BadTarget)
              else if m.verb == GET then m.(target := c, state := Done)
              else m.(target := c, i := 0, len := 2, state := Dlen))
    case Dlen => NextDlen(x, c)
    case Data =>
      if m.target == TOGGLE then x.(m := m.(data := Store(m.data, 0, c), state := Done))
      else if m.target == ADD_USER || m.target == ADD_ADMIN then NextPair(x, c)
      else x.(m := NextName(m, c))
    case _ => x
  }

  function NextDlen(x: Machine, c: byte): Machine {
    var m, combined := x.m, Store(x.s.combined, x.m.i, c);
    var s := x.s.(combined := combined);
    if m.i + 1 < m.len || |combined| != 2 then Machine(m.(i := m.i + 1), s) else
    var dlen := Word(combined[0], combined[1]);
    if m.target == TOGGLE then Machine(m.(i := m.i + 1, dlen := dlen, state := Data), s)
    else Machine(m.(i := 0, len := dlen, dlen := dlen, state := Data), s)
  }

  /** user NUL secret */
  function NextPair(x: Machine, c: byte): Machine {
    var m, s := x.m, x.s;
    if Alnum(c) then
      var at := if m.separated then FIELD + (m.i - s.userLen) else m.i;
      Machine(EndPair(m.(data := Store(m.data, at, c), i := m.i + 1)), s)
    else if c == 0 && !m.separated && m.i != 0 then
      Machine(EndPair(m.(data := Store(m.data, m.i, 0), i := m.i + 1, separated := true)), s.(userLen := m.i + 1))
    else
      Machine(m.(state := BadData), s)
  }

  /** The terminator goes to the total length, not to the length of the secret. */
  function EndPair(m: Mon): Mon {
    if m.i >= m.len then m.(data := Store(m.data, FIELD + m.i, 0), state := Done, separated := false) else m
  }

  function NextName(m: Mon, c: byte): Mon {
    if !Alnum(c) then m.(state := BadData) else
    var n := m.(data := Store(m.data, m.i, c), i := m.i + 1);
    if n.i >= n.len then n.(data := Store(n.data, n.i, 0), state := Done) else n
  }

  predicate IsDone(x: Machine) {
    x.m.state !in {Version, Token, Method, Target, Dlen, Data}
  }

  function Feeder(): (Machine, byte) -> Machine {
    (x: Machine, c: byte) => Next(x, c)
  }

  function Parsed(x: Machine, bs: seq<byte>): (r: Parse<Machine>)
    ensures r.eaten <= |bs| && (!IsDone(r.st) ==> r.eaten == |bs|)
  {
    Consume(Feeder(), IsDone, x, bs)
  }

  function UserOf(m: Mon): seq<byte>
    requires |m.data| == DATA_SIZE
  {
    CString(m.data[..FIELD])
  }

  function SecretOf(m: Mon): seq<byte>
    requires |m.data| == DATA_SIZE
  {
    CString(m.data[FIELD..])
  }

  // ---------------------------------------------------------------- the parser

  class Shared {
    const combined: array<byte>
    var userLen: nat

    constructor ()
      ensures fresh(combined) && combined.Length == 2 && userLen == 0
    {
      combined, userLen := new byte[2](_ => 0), 0;
    }

    ghost function View(): Statics
      reads this, combined
    {
      Statics(combined[..], userLen)
    }
  }

  class MonitorParser {
    const shared: Shared
    const token: array<byte>
    const data: array<byte>
    var state: State
    var len: nat
    var i: nat
    var separated: bool
    var verb: byte
    var target: byte
    var dlen: nat

    ghost function Repr(): set<object> {
      {this, token, data, shared, shared.combined}
    }

    ghost function View(): Machine
      reads this, token, data, shared, shared.combined
    {
      Machine(Mon(state, len, i, separated, token[..], verb, target, dlen, data[..]), shared.View())
    }

    ghost predicate Valid()
      reads this, token, data, shared, shared.combined
    {
      View().Valid() && token != data && token != shared.combined && data != shared.combined
    }

    constructor (s: Shared)
      requires s.combined.Length == 2
      ensures shared == s && Valid() && View() == Machine(FRESH, s.View()) && fresh(token) && fresh(data)
    {
      shared, state, len, i, separated := s, Version, 0, 0, false;
      verb, target, dlen := 0, 0, 0;
      token, data := new byte[TOKEN_SIZE](_ => 0), new byte[DATA_SIZE](_ => 0);
    }

    method Put(at: int, c: byte)
      modifies data
      ensures data[..] == Store(old(data[..]), at, c)
    {
      if 0 <= at < data.Length {
        data[at] := c;
      }
    }

    method FeedDlen(c: byte)
      requires Valid() && state == Dlen
      modifies this, shared.combined
      ensures Valid() && View() == NextDlen(old(View()), c)
    {
      shared.combined[i] := c;
      i := i + 1;
      if i >= len {
        dlen := Word(shared.combined[0], shared.combined[1]);
        if target != TOGGLE {
          i, len := 0, dlen;
        }
        state := Data;
      }
    }

    method FeedPair(c: byte)
      requires Valid() && state == Data && (target == ADD_USER || target == ADD_ADMIN)
      modifies this, data, shared
      ensures Valid() && View() == NextPair(old(View()), c)
    {
      if i == 0 && c == 0 {
        state := BadData;
        return;
      }
      if Alnum(c) {
        Put(if separated then FIELD + (i - shared.userLen) else i, c);
        i := i + 1;
      } else if c == 0 && !separated {
        Put(i, c);
        i := i + 1;
        separated := true;
        shared.userLen := i;
      } else {
        state := BadData;
        return;
      }
      FinishPair();
    }

    /** The end of the parameters of an addition, if this is it. */
    method FinishPair()
      requires token != data && data != shared.combined
      modifies this, data
      ensures View() == Machine(EndPair(old(View()).m), old(View()).s)
    {
      if i >= len {
        Put(FIELD + i, 0);
        state := Done;
        separated := false;
      }
    }

    method FeedName(c: byte)
      requires Valid() && state == Data && (target == DELETE_USER || target == DELETE_ADMIN)
      modifies this, data
      ensures Valid() && View() == Machine(NextName(old(View()).m, c), old(View()).s)
    {
      if !Alnum(c) {
        state := BadData;
        return;
      }
      Put(i, c);
      i := i + 1;
      if i >= len {
        Put(i, 0);
        state := Done;
      }
    }

    /** monitor_parser_feed */
    method Feed(c: byte)
      requires Valid()
      modifies this, token, data, shared, shared.combined
      ensures Valid() && View() == Next(old(View()), c)
    {
      match state {
        case Version =>
          if c == 1 {
            i, len := 0, TOKEN_SIZE;
            state := Token;
          } else {
            state := BadVersion;
          }
        case Token =>
          token[i] := c;
          i := i + 1;
          if i >= len {
            state := Method;
          }
        case Method =>
          verb := c;
          state := if c == GET || c == CONFIG then Target else BadMethod;
        case Target =>
          if c > 4 {
            state := BadTarget;
          } else {
            target := c;
            if verb == GET {
              state := Done;
            } else {
              i, len := 0, 2;
              state := Dlen;
            }
          }
        case Dlen =>
          FeedDlen(c);
        case Data =>
          if target == TOGGLE {
            Put(0, c);
            state := Done;
          } else if target == ADD_USER || target == ADD_ADMIN {
            FeedPair(c);
          } else {
            FeedName(c);
          }
        case _ =>
      }
    }

    /** One turn of the loop of monitor_consume. */
    method Turn(b: Buffer)
      requires Valid() && b.Valid() && b.data !in Repr() && b.CanRead()
      modifies this, token, data, shared, shared.combined, b, b.data
      ensures Valid() && b.Valid()
      ensures View() == Feeder()(old(View()), old(b.View()).bytes[0]) && b.View() == old(b.View()).Take(1)
    {
      var c := b.Read();
      Feed(c);
    }

    method Consume(b: Buffer) returns (st: State)
      requires Valid() && b.Valid() && b.data !in Repr()
      modifies this, token, data, shared, shared.combined, b, b.data
      ensures Valid() && b.Valid() && st == View().m.state
      ensures var p := Parsed(old(View()), old(b.View()).bytes);
              View() == p.st && b.View() == old(b.View()).Take(p.eaten)
    {
      ghost var q0, s0, k := b.View(), View(), 0;
      st := state;
      while b.CanRead()
        invariant Valid() && b.Valid() && k <= |q0.bytes| && b.View() == q0.Take(k) && st == state
        invariant Parsed(s0, q0.bytes) == var p := Parsed(View(), q0.bytes[k..]); Parse(p.st, k + p.eaten)
        invariant k > 0 ==> !IsDone(View())
        decreases |q0.bytes| - k
      {
        assert q0.bytes[k..][1..] == q0.bytes[k + 1..];
        Turn(b);
        st := state;
        k := k + 1;
        if st !in {Version, Token, Method, Target, Dlen, Data} {
          return;
        }
      }
    }
  }

  // ---------------------------------------------------------------- the requests of the client

  /** What parse_args fills in: one of ten method and target kinds, with its data and its length. */
  datatype Request =
    | Ask(what: byte)
    | Toggle(value: byte)
    | AddUser(user: seq<byte>, pass: seq<byte>)
    | DeleteUser(user: seq<byte>)
    | AddAdmin(user: seq<byte>, pass: seq<byte>)
    | DeleteAdmin(user: seq<byte>)
  {
    function Verb(): byte {
      if Ask? then GET else CONFIG
    }

    function Kind(): byte {
      match this
      case Ask(what) => what
      case Toggle(_) => TOGGLE
      case AddUser(_, _) => ADD_USER
      case DeleteUser(_) => DELETE_USER
      case AddAdmin(_, _) => ADD_ADMIN
      case DeleteAdmin(_) => DELETE_ADMIN
    }

    function Payload(): seq<byte> {
      match this
      case Ask(_) => [0]
      case Toggle(value) => [value]
      case AddUser(user, pass) => user + [0] + pass
      case AddAdmin(user, pass) => user + [0] + pass
      case DeleteUser(user) => user
      case DeleteAdmin(user) => user
    }

    /** Alphanumeric, with a name, and short enough for the terminator to fall inside its field. */
    ghost predicate WellFormed() {
      && |Payload()| <= 255 && (Ask? ==> what <= 4)
      && (!Ask? && !Toggle? ==> 1 <= |user| && AllAlnum(user))
      && (AddUser? || AddAdmin? ==> AllAlnum(pass))
    }
  }

  ghost predicate AllAlnum(s: seq<byte>) {
    forall i :: 0 <= i < |s| ==> Alnum(s[i])
  }

  ghost function Encode(token: seq<byte>, r: Request): seq<byte>
    requires |r.Payload()| < 0x1_0000
  {
    [1] + token + [r.Verb(), r.Kind(), |r.Payload()| / 256, |r.Payload()| % 256] + r.Payload()
  }

  // ---------------------------------------------------------------- parsing what was encoded

  lemma StepParsed(x: Machine, c: byte, rest: seq<byte>)
    requires !IsDone(Next(x, c))
    ensures Parsed(x, [c] + rest) == var t := Parsed(Next(x, c), rest); Parse(t.st, 1 + t.eaten)
  {
    var bs := [c] + rest;
    assert Feeder()(x, bs[0]) == Next(x, c);
    assert bs[1..] == rest;
  }

  lemma LastParsed(x: Machine, c: byte, rest: seq<byte>)
    requires IsDone(Next(x, c))
    ensures Parsed(x, [c] + rest) == Parse(Next(x, c), 1)
  {
    var bs := [c] + rest;
    assert Feeder()(x, bs[0]) == Next(x, c);
  }

  lemma {:induction false} TokenFills(x: Machine, token: seq<byte>, rest: seq<byte>)
    requires |token| == TOKEN_SIZE && x.m.state == Token && x.m.len == TOKEN_SIZE && x.m.i < TOKEN_SIZE
    requires x.m.token == Pad(token[..x.m.i], TOKEN_SIZE)
    ensures var y := x.(m := x.m.(state := Method, i := TOKEN_SIZE, token := token));
            var t := Parsed(y, rest);
            Parsed(x, token[x.m.i..] + rest) == Parse(t.st, TOKEN_SIZE - x.m.i + t.eaten)
    decreases TOKEN_SIZE - x.m.i
  {
    var i := x.m.i;
    PadExtends(token[..i], TOKEN_SIZE, token[i]);
    assert token[..i] + [token[i]] == token[..i + 1];
    assert token[i..] + rest == [token[i]] + (token[i + 1..] + rest);
    var y := Next(x, token[i]);
    StepParsed(x, token[i], token[i + 1..] + rest);
    if i + 1 < TOKEN_SIZE {
      TokenFills(y, token, rest);
    } else {
      assert token[i + 1..] + rest == rest && token[..i + 1] == token;
      assert Pad(token, TOKEN_SIZE) == token;
    }
  }

  /** Where the parser stands after the token, for any leftover of earlier requests in the statics. */
  ghost function AtVerb(token: seq<byte>, s: Statics): Machine {
    Machine(FRESH.(state := Method, i := TOKEN_SIZE, len := TOKEN_SIZE, token := token), s)
  }

  lemma HeadParsed(token: seq<byte>, s: Statics, rest: seq<byte>)
    requires |token| == TOKEN_SIZE
    ensures var t := Parsed(AtVerb(token, s), rest);
            Parsed(Machine(FRESH, s), [1] + token + rest) == Parse(t.st, 17 + t.eaten)
  {
    var x := Machine(FRESH, s);
    assert [1] + token + rest == [1] + (token + rest);
    StepParsed(x, 1, token + rest);
    var y := Next(x, 1);
    assert Pad([], TOKEN_SIZE) == Zeros(TOKEN_SIZE) && token[..0] == [] && token[0..] == token;
    TokenFills(y, token, rest);
  }

  /** Where the parser stands once it knows that `n` bytes of parameters follow. */
  ghost function AtData(token: seq<byte>, kind: byte, n: nat): Mon {
    FRESH.(state := Data, i := if kind == TOGGLE then 2 else 0, len := if kind == TOGGLE then 2 else n,
           token := token, verb := CONFIG, target := kind, dlen := n)
  }

  lemma ConfigParsed(token: seq<byte>, s: Statics, kind: byte, n: nat, rest: seq<byte>)
    requires |token| == TOKEN_SIZE && |s.combined| == 2 && kind <= 4 && n < 0x1_0000
    ensures var t := Parsed(Machine(AtData(token, kind, n), Statics([n / 256, n % 256], s.userLen)), rest);
            Parsed(AtVerb(token, s), [CONFIG, kind, n / 256, n % 256] + rest) == Parse(t.st, 4 + t.eaten)
  {
    var hi: byte, lo: byte := n / 256, n % 256;
    assert [CONFIG, kind, hi, lo] + rest == [CONFIG] + ([kind] + ([hi] + ([lo] + rest)));
    var x1 := Next(AtVerb(token, s), CONFIG);
    StepParsed(AtVerb(token, s), CONFIG, [kind] + ([hi] + ([lo] + rest)));
    var x2 := Next(x1, kind);
    StepParsed(x1, kind, [hi] + ([lo] + rest));
    var x3 := Next(x2, hi);
    StepParsed(x2, hi, [lo] + rest);
    var x4 := Next(x3, lo);
    assert x4 == Machine(AtData(token, kind, n), Statics([hi, lo], s.userLen)) by {
      assert s.combined[0 := hi][1 := lo] == [hi, lo];
    }
    StepParsed(x3, lo, rest);
  }

  /** The parameters as the parser lays them out. */
  ghost function Fields(user: seq<byte>, secret: seq<byte>): seq<byte>
    requires |user| <= FIELD && |secret| <= FIELD
  {
    Pad(user, FIELD) + Pad(secret, FIELD)
  }

  lemma FieldsEmpty()
    ensures Fields([], []) == Zeros(DATA_SIZE)
  {
  }

  lemma FieldsUser(user: seq<byte>, secret: seq<byte>, c: byte)
    requires |user| < FIELD && |secret| <= FIELD
    ensures Store(Fields(user, secret), |user|, c) == Fields(user + [c], secret)
  {
    PadExtends(user, FIELD, c);
  }

  lemma FieldsSecret(user: seq<byte>, secret: seq<byte>, c: byte)
    requires |user| <= FIELD && |secret| < FIELD
    ensures Store(Fields(user, secret), FIELD + |secret|, c) == Fields(user, secret + [c])
  {
    PadExtends(secret, FIELD, c);
  }

  /** A terminator beyond what was written changes nothing. */
  lemma FieldsZero(user: seq<byte>, secret: seq<byte>, at: nat)
    requires |user| <= FIELD && |secret| <= FIELD
    requires |user| <= at < FIELD || FIELD + |secret| <= at < DATA_SIZE
    ensures Store(Fields(user, secret), at, 0) == Fields(user, secret)
  {
  }

  lemma FieldsRead(user: seq<byte>, secret: seq<byte>, m: Mon)
    requires NulFree(user) && NulFree(secret) && |user| <= FIELD && |secret| <= FIELD && m.data == Fields(user, secret)
    ensures UserOf(m) == user && SecretOf(m) == secret
  {
    CStringOfPad(user, FIELD);
    CStringOfPad(secret, FIELD);
    assert m.data[..FIELD] == Pad(user, FIELD) && m.data[FIELD..] == Pad(secret, FIELD);
  }

  lemma {:induction false} UserFills(x: Machine, user: seq<byte>, rest: seq<byte>)
    requires x.m.state == Data && (x.m.target == ADD_USER || x.m.target == ADD_ADMIN) && !x.m.separated
    requires AllAlnum(user) && x.m.i <= |user| < x.m.len <= 255 && x.m.data == Fields(user[..x.m.i], [])
    ensures var y := x.(m := x.m.(i := |user|, data := Fields(user, [])));
            var t := Parsed(y, rest);
            Parsed(x, user[x.m.i..] + rest) == Parse(t.st, |user| - x.m.i + t.eaten)
    decreases |user| - x.m.i
  {
    var i := x.m.i;
    if i == |user| {
      assert user[i..] + rest == rest && user[..i] == user;
    } else {
      FieldsUser(user[..i], [], user[i]);
      assert user[..i] + [user[i]] == user[..i + 1];
      assert user[i..] + rest == [user[i]] + (user[i + 1..] + rest);
      StepParsed(x, user[i], user[i + 1..] + rest);
      UserFills(Next(x, user[i]), user, rest);
    }
  }

  lemma {:induction false} SecretFills(x: Machine, user: seq<byte>, pass: seq<byte>, j: nat, rest: seq<byte>)
    requires x.m.state == Data && (x.m.target == ADD_USER || x.m.target == ADD_ADMIN) && x.m.separated
    requires AllAlnum(pass) && j < |pass| && x.m.len == |user| + 1 + |pass| <= 255
    requires x.s.userLen == |user| + 1 && x.m.i == |user| + 1 + j && x.m.data == Fields(user, pass[..j])
    ensures var m := x.m.(state := Done, separated := false, i := x.m.len, data := Fields(user, pass));
            Parsed(x, pass[j..] + rest) == Parse(Machine(m, x.s), |pass| - j)
    decreases |pass| - j
  {
    FieldsSecret(user, pass[..j], pass[j]);
    assert pass[..j] + [pass[j]] == pass[..j + 1];
    assert pass[j..] + rest == [pass[j]] + (pass[j + 1..] + rest);
    if j + 1 < |pass| {
      StepParsed(x, pass[j], pass[j + 1..] + rest);
      SecretFills(Next(x, pass[j]), user, pass, j + 1, rest);
    } else {
      assert pass[..j + 1] == pass;
      FieldsZero(user, pass, FIELD + x.m.len);
      LastParsed(x, pass[j], pass[j + 1..] + rest);
    }
  }

  /** The whole of `user NUL secret`. */
  lemma PairParsed(x: Machine, user: seq<byte>, pass: seq<byte>, rest: seq<byte>)
    requires x.m.state == Data && (x.m.target == ADD_USER || x.m.target == ADD_ADMIN) && !x.m.separated
    requires AllAlnum(user) && AllAlnum(pass) && 1 <= |user| && x.m.len == |user| + 1 + |pass| <= 255
    requires x.m.i == 0 && x.m.data == Zeros(DATA_SIZE)
    ensures var m := x.m.(state := Done, i := x.m.len, data := Fields(user, pass));
            Parsed(x, user + [0] + pass + rest) == Parse(Machine(m, x.s.(userLen := |user| + 1)), x.m.len)
  {
    FieldsEmpty();
    assert user[..0] == [] && user[0..] == user;
    assert user + [0] + pass + rest == user + ([0] + (pass + rest));
    UserFills(x, user, [0] + (pass + rest));
    var y := x.(m := x.m.(i := |user|, data := Fields(user, [])));
    FieldsZero(user, [], |user|);
    if pass == [] {
      FieldsZero(user, [], FIELD + x.m.len);
      LastParsed(y, 0, pass + rest);
    } else {
      StepParsed(y, 0, pass + rest);
      assert pass[..0] == [] && pass[0..] == pass;
      SecretFills(Next(y, 0), user, pass, 0, rest);
    }
  }

  lemma {:induction false} NameFills(x: Machine, user: seq<byte>, rest: seq<byte>)
    requires x.m.state == Data && (x.m.target == DELETE_USER || x.m.target == DELETE_ADMIN)
    requires AllAlnum(user) && x.m.i < |user| == x.m.len <= 255 && x.m.data == Fields(user[..x.m.i], [])
    ensures var m := x.m.(state := Done, i := |user|, data := Fields(user, []));
            Parsed(x, user[x.m.i..] + rest) == Parse(Machine(m, x.s), |user| - x.m.i)
    decreases |user| - x.m.i
  {
    var i := x.m.i;
    FieldsUser(user[..i], [], user[i]);
    assert user[..i] + [user[i]] == user[..i + 1];
    assert user[i..] + rest == [user[i]] + (user[i + 1..] + rest);
    if i + 1 < |user| {
      StepParsed(x, user[i], user[i + 1..] + rest);
      NameFills(Next(x, user[i]), user, rest);
    } else {
      assert user[..i + 1] == user;
      FieldsZero(user, [], |user|);
      LastParsed(x, user[i], user[i + 1..] + rest);
    }
  }

  /** The parsed request says what the client said. */
  ghost predicate Says(m: Mon, token: seq<byte>, r: Request) {
    && |m.data| == DATA_SIZE
    && m.state == Done && m.token == token && m.verb == r.Verb() && m.target == r.Kind()
    && m.dlen == (if r.Ask? then 0 else |r.Payload()|)
    && match r
       case Ask(_) => true
       case Toggle(value) => m.data[0] == value
       case AddUser(user, pass) => UserOf(m) == user && SecretOf(m) == pass
       case AddAdmin(user, pass) => UserOf(m) == user && SecretOf(m) == pass
       case DeleteUser(user) => UserOf(m) == user
       case DeleteAdmin(user) => UserOf(m) == user
  }

  lemma AlnumIsNulFree(s: seq<byte>)
    requires AllAlnum(s)
    ensures NulFree(s)
  {
  }

  lemma ParametersParsed(token: seq<byte>, s: Statics, r: Request, rest: seq<byte>)
    requires |token| == TOKEN_SIZE && r.WellFormed() && !r.Ask?
    ensures var p := Parsed(Machine(AtData(token, r.Kind(), |r.Payload()|), s), r.Payload() + rest);
            p.eaten == |r.Payload()| && Says(p.st.m, token, r)
  {
    var x := Machine(AtData(token, r.Kind(), |r.Payload()|), s);
    match r {
      case Ask(_) =>
      case Toggle(value) =>
        LastParsed(x, value, rest);
      case AddUser(user, pass) =>
        PairParsed(x, user, pass, rest);
        AlnumIsNulFree(user);
        AlnumIsNulFree(pass);
        FieldsRead(user, pass, x.m.(data := Fields(user, pass)));
      case AddAdmin(user, pass) =>
        PairParsed(x, user, pass, rest);
        AlnumIsNulFree(user);
        AlnumIsNulFree(pass);
        FieldsRead(user, pass, x.m.(data := Fields(user, pass)));
      case DeleteUser(user) =>
        DeletionParsed(x, user, rest);
      case DeleteAdmin(user) =>
        DeletionParsed(x, user, rest);
    }
  }

  lemma DeletionParsed(x: Machine, user: seq<byte>, rest: seq<byte>)
    requires x.m.state == Data && (x.m.target == DELETE_USER || x.m.target == DELETE_ADMIN)
    requires AllAlnum(user) && x.m.i == 0 < |user| == x.m.len <= 255 && x.m.data == Zeros(DATA_SIZE)
    ensures var m := x.m.(state := Done, i := |user|, data := Fields(user, []));
            Parsed(x, user + rest) == Parse(Machine(m, x.s), |user|) && UserOf(m) == user
  {
    FieldsEmpty();
    assert user[..0] == [] && user[0..] == user;
    NameFills(x, user, rest);
    AlnumIsNulFree(user);
    FieldsRead(user, [], x.m.(data := Fields(user, [])));
  }

  /**
   * Every request the client can make is understood as it was meant, whatever earlier requests left in
   * the shared variables, and whatever follows it stays unread: 19 bytes are eaten for GET, whose
   * length and data the server does not read, and 21 plus the data for CONFIG.
   */
  lemma RequestRoundTrip(token: seq<byte>, r: Request, s: Statics, rest: seq<byte>)
    requires |token| == TOKEN_SIZE && r.WellFormed() && |s.combined| == 2
    ensures var p := Parsed(Machine(FRESH, s), Encode(token, r) + rest);
            && p.eaten == (if r.Ask? then 19 else 21 + |r.Payload()|) && Says(p.st.m, token, r)
  {
    hide Next, Parsed, Says;
    var n := |r.Payload()|;
    var tail := r.Payload() + rest;
    assert Encode(token, r) + rest == [1] + token + ([r.Verb(), r.Kind(), n / 256, n % 256] + tail);
    HeadParsed(token, s, [r.Verb(), r.Kind(), n / 256, n % 256] + tail);
    if r.Ask? {
      AskParsed(token, s, r.what, [n / 256, n % 256] + tail);
      assert [GET, r.what, n / 256, n % 256] + tail == [GET, r.what] + ([n / 256, n % 256] + tail);
    } else {
      ConfigParsed(token, s, r.Kind(), n, tail);
      ParametersParsed(token, Statics([n / 256, n % 256], s.userLen), r, rest);
    }
  }

  lemma AskParsed(token: seq<byte>, s: Statics, what: byte, rest: seq<byte>)
    requires |token| == TOKEN_SIZE && what <= 4
    ensures var p := Parsed(AtVerb(token, s), [GET, what] + rest);
            p.eaten == 2 && Says(p.st.m, token, Ask(what))
  {
    assert [GET, what] + rest == [GET] + ([what] + rest);
    StepParsed(AtVerb(token, s), GET, [what] + rest);
    LastParsed(Next(AtVerb(token, s), GET), what, rest);
    hide Parsed;
  }

  /** The length is read right exactly if its first byte is still in the shared variable. */
  lemma LengthIffUndisturbed(m: Mon, s: Statics, hi: byte, lo: byte)
    requires m.state == Dlen && m.len == 2 && m.i == 1 && |s.combined| == 2
    ensures Next(Machine(m, s), lo).m.dlen == Word(hi, lo) <==> s.combined[0] == hi
  {
    assert s.combined[1 := lo][0] == s.combined[0];
  }

  /**
   * One request at a time is needed: a second parser fed between the two bytes of a length leaves its
   * own byte in the shared variable, and the first parser takes 261 for 5.
   */
  lemma SharedLengthIsOverwritten()
    ensures var m := FRESH.(state := Dlen, len := 2, verb := CONFIG, target := ADD_USER);
            var a := Next(Machine(m, Statics([0, 0], 0)), 0);
            var b := Next(Machine(m, a.s), 1);
            && Next(a, 5).m.dlen == 5
            && Next(a.(s := b.s), 5).m.dlen == 261
  {
  }
}
