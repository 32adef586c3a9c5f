/** What monitor_process does with a parsed request, and what a client obtains by sending one. */
module MonitorServer {
  import opened Bytes
  import opened Monitor
  import opened MonitorClient
  import opened Accounts

  const OK: byte := 0
  const INVALID_DATA: byte := 4
  const ERROR_AUTH: byte := 5

  datatype Stats = Stats(historic: nat, current: nat, transferred: nat) {

    ghost predicate Valid() {
      historic < U32 && current < U32 && transferred < U32
    }
  }

  datatype Db = Db(users: seq<User>, admins: seq<User>, disector: bool)

  datatype Answer = Answer(status: byte, dlen: nat, body: Body)

  ghost predicate IsAdminToken(admins: seq<User>, token: seq<byte>) {
    exists i :: 0 <= i < |admins| && admins[i].pass == token
  }

  function Coded(code: int): Answer {
    Answer(if code == 0 then OK else INVALID_DATA, 1, Null)
  }

  function Asked(db: Db, st: Stats, what: byte): Answer {
    if what == 0 then Answer(OK, 4, Number(st.historic))
    else if what == 1 then Answer(OK, 4, Number(st.current))
    else if what == 2 then Answer(OK, 4, Number(st.transferred))
    else
      var l := Listing(Names(if what == 3 then db.users else db.admins));
      Answer(OK, |l|, Raw(l))
  }

  /** The outcome of a request on values: who asks decides whether anything happens at all. */
  ghost function Outcome(db: Db, st: Stats, m: Mon): (Db, Answer)
    requires |m.data| == DATA_SIZE
  {
    var user, secret := UserOf(m), SecretOf(m);
    if !IsAdminToken(db.admins, m.token) then (db, Answer(ERROR_AUTH, 1, Null))
    else if m.verb == GET then (db, Asked(db, st, m.target))
    else if m.target == TOGGLE then (db.(disector := m.data[0] == 1), Answer(OK, 1, Null))
    else if m.target == ADD_USER then
      (db.(users := Added(db.users, User(user, secret), MAX_USERS)),
       Coded(if |db.users| >= MAX_USERS then 1 else if Has(db.users, user) then -1 else 0))
    else if m.target == DELETE_USER then
      (db.(users := Without(db.users, user)), Coded(if Has(db.users, user) then 0 else -1))
    else if m.target == ADD_ADMIN then
      (db.(admins := AdminAdded(db.admins, User(user, secret))),
       Coded(if |db.admins| >= MAX_ADMINS then 1
             else if |secret| != TOKEN || Has(db.admins, user) then -1 else 0))
    else
      (db.(admins := AdminRemoved(db.admins, user)),
       Coded(if user != ROOT && Has(db.admins, user) then 0 else -1))
  }

  /** A request as the parser leaves it when it is done, with texts that fit the fields they are copied to. */
  ghost predicate Complete(m: Mon) {
    && |m.data| == DATA_SIZE && |m.token| == TOKEN_SIZE && m.verb <= 1 && m.target <= 4
    && Text(UserOf(m)) && Text(SecretOf(m))
  }

  class Manager {
    const users: UserTable
    const admins: AdminTable
    var disector: bool

    ghost predicate Valid()
      reads this, users, users.users, admins, admins.admins
    {
      users.Valid() && admins.Valid() && users.users != admins.admins
    }

    ghost function View(): Db
      reads this, users, users.users, admins, admins.admins
      requires Valid()
    {
      Db(users.View(), admins.View(), disector)
    }

    constructor ()
      ensures Valid() && View() == Db([], [], true)
    {
      users := new UserTable();
      admins := new AdminTable();
      disector := true;
    }

    method Get(what: byte, st: Stats) returns (a: Answer)
      requires Valid() && what <= 4
      ensures Valid() && View() == old(View()) && a == Asked(View(), st, what)
    {
      if what <= 2 {
        var n := if what == 0 then st.historic else if what == 1 then st.current else st.transferred;
        return Answer(OK, 4, Number(n));
      }
      var unames := new byte[MAX_USERS * NAME](_ => 0);
      var dlen: nat;
      if what == 3 {
        dlen := users.GetUsers(unames);
      } else {
        dlen := admins.GetAdmins(unames);
      }
      return Answer(OK, dlen, Raw(unames[..dlen]));
    }

    method Configure(m: Mon) returns (a: Answer)
      requires Valid() && Complete(m) && m.verb == CONFIG && IsAdminToken(View().admins, m.token)
      modifies this, users, users.users, admins, admins.admins
      ensures Valid() && forall st :: (View(), a) == Outcome(old(View()), st, m)
    {
      var code := 0;
      if m.target == TOGGLE {
        disector := m.data[0] == 1;
      } else if m.target == ADD_USER {
        code := users.Register(UserOf(m), SecretOf(m));
      } else if m.target == DELETE_USER {
        code := users.Unregister(UserOf(m));
      } else if m.target == ADD_ADMIN {
        code := admins.Register(UserOf(m), SecretOf(m));
      } else {
        code := admins.Unregister(UserOf(m));
      }
      a := Coded(code);
    }

    /** monitor_process, up to the marshalling of the answer. */
    method Process(m: Mon, st: Stats) returns (a: Answer)
      requires Valid() && Complete(m)
      modifies this, users, users.users, admins, admins.admins
      ensures Valid() && (View(), a) == Outcome(old(View()), st, m)
    {
      var known := admins.IsAdmin(m.token);
      assert known <==> IsAdminToken(View().admins, m.token);
      if !known {
        return Answer(ERROR_AUTH, 1, Null);
      }
      if m.verb == GET {
        a := Get(m.target, st);
      } else {
        a := Configure(m);
      }
    }
  }

  // ---------------------------------------------------------------- from client to server and back

  /** What the server makes of the bytes a client sends, whatever earlier requests left behind. */
  ghost function Served(db: Db, st: Stats, token: seq<byte>, r: Request, s: Statics): (Db, Answer)
    requires |token| == TOKEN_SIZE && r.WellFormed() && |s.combined| == 2
  {
    RequestRoundTrip(token, r, s, []);
    assert Encode(token, r) + [] == Encode(token, r);
    Outcome(db, st, Parsed(Machine(FRESH, s), Encode(token, r)).st.m)
  }

  /** Without the token of an administrator nothing changes and nothing is told. */
  lemma StrangersAreRefused(db: Db, st: Stats, token: seq<byte>, r: Request, s: Statics)
    requires |token| == TOKEN_SIZE && r.WellFormed() && |s.combined| == 2 && !IsAdminToken(db.admins, token)
    ensures Served(db, st, token, r, s) == (db, Answer(ERROR_AUTH, 1, Null))
  {
    RequestRoundTrip(token, r, s, []);
    assert Encode(token, r) + [] == Encode(token, r);
    hide Parsed, Encode;
  }

  /** What was asked for has happened, and OK is answered exactly then. */
  ghost predicate Effective(db: Db, r: Request, outcome: (Db, Answer)) {
    var (after, a) := outcome;
    match r
    case Ask(_) => after == db
    case Toggle(v) => after == db.(disector := v == 1) && a.status == OK
    case AddUser(u, p) =>
      && after == db.(users := Changed(db.users, Add(User(u, p)), MAX_USERS))
      && (a.status == OK <==> after.users == db.users + [User(u, p)])
    case DeleteUser(u) =>
      && after == db.(users := Changed(db.users, Remove(u), MAX_USERS))
      && (a.status == OK <==> Has(db.users, u))
    case AddAdmin(u, p) =>
      && after == db.(admins := AdminAdded(db.admins, User(u, p)))
      && (a.status == OK <==> after.admins == db.admins + [User(u, p)])
    case DeleteAdmin(u) =>
      && after == db.(admins := AdminRemoved(db.admins, u))
      && (a.status == OK <==> u != ROOT && Has(db.admins, u))
  }

  /** The effect on the tables of a configuration request, in terms of what the client asked for. */
  lemma ConfigurationTakesEffect(db: Db, st: Stats, token: seq<byte>, r: Request, s: Statics)
    requires |token| == TOKEN_SIZE && r.WellFormed() && |s.combined| == 2 && IsAdminToken(db.admins, token)
    ensures Effective(db, r, Served(db, st, token, r, s))
  {
    RequestRoundTrip(token, r, s, []);
    assert Encode(token, r) + [] == Encode(token, r);
    hide Parsed, Encode, Says, Outcome, Effective;
    SaysEffects(db, st, Parsed(Machine(FRESH, s), Encode(token, r)).st.m, token, r);
  }

  lemma SaysEffects(db: Db, st: Stats, m: Mon, token: seq<byte>, r: Request)
    requires Says(m, token, r) && IsAdminToken(db.admins, token)
    ensures Effective(db, r, Outcome(db, st, m))
  {
    hide IndexOf, UserOf, SecretOf;
  }

  lemma AskedIs(db: Db, st: Stats, token: seq<byte>, what: byte, s: Statics)
    requires |token| == TOKEN_SIZE && |s.combined| == 2 && what <= 4 && IsAdminToken(db.admins, token)
    ensures Served(db, st, token, Ask(what), s) == (db, Asked(db, st, what))
  {
    RequestRoundTrip(token, Ask(what), s, []);
    assert Encode(token, Ask(what)) + [] == Encode(token, Ask(what));
    hide Parsed, Encode;
  }

  /** An administrator who asks for a counter reads the counter. */
  lemma CountersAreAnswered(db: Db, st: Stats, token: seq<byte>, what: byte, s: Statics)
    requires |token| == TOKEN_SIZE && |s.combined| == 2 && what <= 2 && st.Valid() && IsAdminToken(db.admins, token)
    ensures var n := if what == 0 then st.historic else if what == 1 then st.current else st.transferred;
            && Served(db, st, token, Ask(what), s).1 == Answer(OK, 4, Number(n))
            && var reply := ReplyBytes(OK, 4, Number(n)); |reply| == 7 && Word32(reply[3..7]) == n
  {
    AskedIs(db, st, token, what, s);
    CounterReplyRoundTrip(if what == 0 then st.historic else if what == 1 then st.current else st.transferred, OK);
  }

  lemma {:induction false} ListingBound(names: seq<seq<byte>>)
    requires forall i :: 0 <= i < |names| ==> |names[i]| < NAME
    ensures |Listing(names)| <= |names| * NAME
    decreases |names|
  {
    if |names| > 1 {
      ListingBound(names[1..]);
    }
  }

  /** An administrator who asks for a list sees the names of the table, in order, one a line. */
  lemma ListsAreAnswered(db: Db, st: Stats, token: seq<byte>, what: byte, s: Statics)
    requires |token| == TOKEN_SIZE && |s.combined| == 2 && 3 <= what <= 4 && IsAdminToken(db.admins, token)
    requires var names := Names(if what == 3 then db.users else db.admins);
             |names| <= MAX_USERS && forall i :: 0 <= i < |names| ==> Text(names[i])
    ensures var names := Names(if what == 3 then db.users else db.admins);
            var l := Listing(names);
            && |l| <= MAX_USERS * NAME
            && Served(db, st, token, Ask(what), s).1 == Answer(OK, |l|, Raw(l))
            && var reply := ReplyBytes(OK, |l|, Raw(l));
               && |reply| == 3 + |l| && Word(reply[1], reply[2]) == |l|
               && Split(reply[3..3 + |l|]) == if names == [] then [[]] else names
  {
    var names := Names(if what == 3 then db.users else db.admins);
    hide Served, Listing, Split;
    AskedIs(db, st, token, what, s);
    ListingBound(names);
    ListReplyRoundTrip(names, OK);
  }
}
