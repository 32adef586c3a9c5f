/**
 * The proxy users of socks5nio.c and the administrators of monitornio.c: bounded arrays kept in
 * insertion order, with deletion by shifting down and a NUL-joined listing.
 */
module Accounts {
  import opened Bytes

  const MAX_USERS := 10
  const MAX_ADMINS := 3
  const NAME := 255
  const TOKEN := 16

  const ROOT: seq<byte> := [114, 111, 111, 116]

  datatype User = User(name: seq<byte>, pass: seq<byte>)

  /** A C string that fits a field of 255 bytes with its terminator. */
  ghost predicate Text(s: seq<byte>) {
    NulFree(s) && |s| < NAME
  }

  // ---------------------------------------------------------------- what the tables mean

  /** The first entry of that name, or the number of entries. */
  function IndexOf(users: seq<User>, name: seq<byte>): (i: nat)
    ensures i <= |users|
    ensures i < |users| ==> users[i].name == name
    ensures forall k :: 0 <= k < i ==> users[k].name != name
  {
    if users == [] || users[0].name == name then 0 else 1 + IndexOf(users[1..], name)
  }

  predicate Has(users: seq<User>, name: seq<byte>) {
    IndexOf(users, name) < |users|
  }

  function Added(users: seq<User>, u: User, max: nat): seq<User> {
    if |users| >= max || Has(users, u.name) then users else users + [u]
  }

  function Without(users: seq<User>, name: seq<byte>): seq<User> {
    var i := IndexOf(users, name);
    if i < |users| then users[..i] + users[i + 1..] else users
  }

  ghost predicate Distinct(users: seq<User>) {
    forall i, j :: 0 <= i < j < |users| ==> users[i].name != users[j].name
  }

  function Names(users: seq<User>): seq<seq<byte>> {
    seq(|users|, i requires 0 <= i < |users| => users[i].name)
  }

  // ---------------------------------------------------------------- the reference: a bounded ordered map

  datatype Ordered = Ordered(order: seq<seq<byte>>, binds: map<seq<byte>, seq<byte>>)

  datatype Change = Add(u: User) | Remove(name: seq<byte>)

  ghost function Except(order: seq<seq<byte>>, name: seq<byte>): seq<seq<byte>> {
    if order == [] then []
    else (if order[0] == name then [] else [order[0]]) + Except(order[1..], name)
  }

  ghost function Reference(r: Ordered, ch: Change, max: nat): Ordered {
    match ch
    case Add(u) =>
      if |r.order| >= max || u.name in r.binds then r
      else Ordered(r.order + [u.name], r.binds[u.name := u.pass])
    case Remove(name) => Ordered(Except(r.order, name), r.binds - {name})
  }

  function Changed(users: seq<User>, ch: Change, max: nat): seq<User> {
    match ch
    case Add(u) => Added(users, u, max)
    case Remove(name) => Without(users, name)
  }

  /** The table is the map, in its order. */
  ghost predicate Represents(users: seq<User>, r: Ordered) {
    Distinct(users) && r.order == Names(users) && Bound(users, r.binds)
  }

  ghost predicate Bound(users: seq<User>, binds: map<seq<byte>, seq<byte>>) {
    && (forall u :: u in users ==> u.name in binds && binds[u.name] == u.pass)
    && (forall n :: n in binds ==> Has(users, n))
  }

  lemma {:induction false} ExceptSplits(order: seq<seq<byte>>, i: nat)
    requires i < |order|
    requires forall j, k :: 0 <= j < k < |order| ==> order[j] != order[k]
    ensures Except(order, order[i]) == order[..i] + order[i + 1..]
  {
    var rest := order[1..];
    if i == 0 {
      ExceptAbsent(rest, order[0]);
    } else {
      assert rest[i - 1] == order[i];
      ExceptSplits(rest, i - 1);
      assert order[..i] == [order[0]] + rest[..i - 1] && order[i + 1..] == rest[i..];
    }
  }

  lemma {:induction false} ExceptAbsent(order: seq<seq<byte>>, name: seq<byte>)
    requires name !in order
    ensures Except(order, name) == order
  {
    if order != [] {
      assert order[0] in order && order == [order[0]] + order[1..];
      ExceptAbsent(order[1..], name);
    }
  }

  lemma AddRefines(users: seq<User>, r: Ordered, u: User, max: nat)
    requires Represents(users, r)
    ensures Represents(Added(users, u, max), Reference(r, Add(u), max))
  {
    if Has(users, u.name) {
      assert users[IndexOf(users, u.name)] in users;
    } else if |users| < max {
      var next := users + [u];
      assert Names(next) == Names(users) + [u.name];
      forall n | n in r.binds[u.name := u.pass] ensures Has(next, n) {
        var k := if n == u.name then |users| else IndexOf(users, n);
        assert next[k].name == n;
      }
    }
  }

  lemma DropKeepsDistinct(users: seq<User>, i: nat)
    requires Distinct(users) && i < |users|
    ensures Distinct(users[..i] + users[i + 1..])
  {
    var next := users[..i] + users[i + 1..];
    forall j, k | 0 <= j < k < |next| ensures next[j].name != next[k].name {
      var j', k' := if j < i then j else j + 1, if k < i then k else k + 1;
      assert next[j] == users[j'] && next[k] == users[k'];
    }
  }

  /** Removing a name keeps the order of the rest. */
  lemma WithoutSplits(users: seq<User>, name: seq<byte>)
    requires Distinct(users)
    ensures Distinct(Without(users, name)) && Names(Without(users, name)) == Except(Names(users), name)
  {
    var i, names := IndexOf(users, name), Names(users);
    if i < |users| {
      DropKeepsDistinct(users, i);
      assert names[i] == name;
      ExceptSplits(names, i);
      assert Names(users[..i] + users[i + 1..]) == names[..i] + names[i + 1..];
    } else {
      assert name !in names;
      ExceptAbsent(names, name);
    }
  }

  /** Removing a name removes its entry and no other. */
  lemma WithoutMembers(users: seq<User>, name: seq<byte>, u: User)
    requires Distinct(users)
    ensures u in Without(users, name) <==> u in users && u.name != name
  {
    var i, next := IndexOf(users, name), Without(users, name);
    if i < |users| {
      if u in next {
        var k :| 0 <= k < |next| && next[k] == u;
        assert users[if k < i then k else k + 1] == u;
      }
      if u in users && u.name != name {
        var k :| 0 <= k < |users| && users[k] == u;
        assert next[if k < i then k else k - 1] == u;
      }
    }
  }

  lemma BoundStays(users: seq<User>, binds: map<seq<byte>, seq<byte>>, name: seq<byte>, n: seq<byte>)
    requires Distinct(users) && Bound(users, binds) && n in binds && n != name
    ensures Has(Without(users, name), n)
  {
    var u := users[IndexOf(users, n)];
    WithoutMembers(users, name, u);
    hide Without;
    assert u.name == n && u in Without(users, name);
  }

  lemma RemoveRefines(users: seq<User>, r: Ordered, name: seq<byte>)
    requires Represents(users, r)
    ensures Represents(Without(users, name), Reference(r, Remove(name), 0))
  {
    hide Except, Without, Names, Has, Distinct;
    WithoutSplits(users, name);
    var next, binds := Without(users, name), r.binds - {name};
    assert Bound(next, binds) by {
      forall u | u in next ensures u in users && u.name != name {
        WithoutMembers(users, name, u);
      }
      forall n | n in binds ensures Has(next, n) {
        BoundStays(users, r.binds, name, n);
      }
    }
  }

  ghost function ReferenceRun(r: Ordered, chs: seq<Change>, max: nat): Ordered
    decreases chs
  {
    if chs == [] then r else ReferenceRun(Reference(r, chs[0], max), chs[1..], max)
  }

  function ChangedBy(users: seq<User>, chs: seq<Change>, max: nat): seq<User>
    decreases chs
  {
    if chs == [] then users else ChangedBy(Changed(users, chs[0], max), chs[1..], max)
  }

  /** Any sequence of additions and deletions: the table is the bounded insertion-ordered map. */
  lemma {:induction false} TableRefinesOrderedMap(users: seq<User>, r: Ordered, chs: seq<Change>, max: nat)
    requires Represents(users, r) && |users| <= max
    ensures Represents(ChangedBy(users, chs, max), ReferenceRun(r, chs, max))
    ensures |ChangedBy(users, chs, max)| <= max
    decreases chs
  {
    if chs != [] {
      match chs[0] {
        case Add(u) => AddRefines(users, r, u, max);
        case Remove(name) => RemoveRefines(users, r, name);
      }
      TableRefinesOrderedMap(Changed(users, chs[0], max), Reference(r, chs[0], max), chs[1..], max);
    }
  }

  /** A name and password match some entry exactly when the map binds the one to the other. */
  lemma AuthenticatesIffBound(users: seq<User>, r: Ordered, name: seq<byte>, pass: seq<byte>)
    requires Represents(users, r)
    ensures User(name, pass) in users <==> name in r.binds && r.binds[name] == pass
  {
    if name in r.binds {
      assert users[IndexOf(users, name)] in users;
    }
  }

  // ---------------------------------------------------------------- the arrays

  /** struct user and struct admin: two fields of raw characters. */
  datatype Record = Record(uname: seq<byte>, secret: seq<byte>)

  const BLANK := Record(Zeros(NAME), Zeros(NAME))

  ghost function Read(records: seq<Record>): seq<User> {
    seq(|records|, i requires 0 <= i < |records| => User(CString(records[i].uname), CString(records[i].secret)))
  }

  /** strncpy into a field of `n` bytes: the text, then zeros. */
  function Strncpy(s: seq<byte>, n: nat): seq<byte>
    requires |s| <= n
  {
    Pad(s, n)
  }

  /** The search loop of every operation, from index `from` on. */
  method Search(a: array<Record>, from: nat, n: nat, name: seq<byte>) returns (i: nat)
    requires from <= n <= a.Length
    ensures from <= i <= n
    ensures i < n ==> CString(a[i].uname) == name
    ensures forall k :: from <= k < i ==> CString(a[k].uname) != name
  {
    i := from;
    while i < n
      invariant from <= i <= n
      invariant forall k :: from <= k < i ==> CString(a[k].uname) != name
    {
      if CString(a[i].uname) == name {
        return;
      }
      i := i + 1;
    }
  }

  /** memmove of the tail one place down. */
  method ShiftDown(a: array<Record>, i: nat, n: nat)
    requires i < n <= a.Length
    modifies a
    ensures a[..n - 1] == old(a[..i]) + old(a[i + 1..n])
  {
    var k := i;
    while k + 1 < n
      invariant i <= k < n
      invariant a[..k] == old(a[..i]) + old(a[i + 1..k + 1])
      invariant a[k + 1..n] == old(a[k + 1..n])
    {
      ghost var rest := a[k + 1..n];
      assert a[k + 1] == rest[0] == old(a[k + 1]);
      a[k] := a[k + 1];
      assert a[..k + 1] == a[..k] + [a[k]];
      assert old(a[i + 1..k + 2]) == old(a[i + 1..k + 1]) + [old(a[k + 1])];
      assert a[k + 2..n] == rest[1..];
      k := k + 1;
    }
  }

  lemma IndexIs(users: seq<User>, name: seq<byte>, i: nat)
    requires i <= |users| && (i < |users| ==> users[i].name == name)
    requires forall k :: 0 <= k < i ==> users[k].name != name
    ensures IndexOf(users, name) == i
  {
  }

  ghost predicate Short(users: seq<User>) {
    forall i :: 0 <= i < |users| ==> |users[i].name| < NAME
  }

  /** Writing two texts into the next free record appends them to the table. */
  lemma StoreAppends(before: seq<Record>, after: seq<Record>, name: seq<byte>, secret: seq<byte>, n: nat)
    requires Text(name) && NulFree(secret) && |secret| <= n
    requires after == before + [Record(Strncpy(name, NAME), Strncpy(secret, n))]
    ensures Read(after) == Read(before) + [User(name, secret)]
    ensures Short(Read(before)) ==> Short(Read(after))
  {
    CStringOfPad(name, NAME);
    CStringOfPad(secret, n);
    hide Strncpy, CString;
    assert Read(after)[..|before|] == Read(before);
  }

  /** Shifting down removes one entry. */
  lemma ShiftRemoves(before: seq<Record>, after: seq<Record>, i: nat)
    requires i < |before| && after == before[..i] + before[i + 1..]
    ensures Read(after) == Read(before)[..i] + Read(before)[i + 1..]
    ensures Short(Read(before)) ==> Short(Read(after))
    ensures Distinct(Read(before)) ==> Distinct(Read(after))
  {
    hide CString;
  }

  class UserTable {
    const users: array<Record>
    var registered: nat

    ghost predicate Valid()
      reads this, users
    {
      users.Length == MAX_USERS && registered <= MAX_USERS && Short(Read(users[..registered]))
    }

    ghost function View(): seq<User>
      reads this, users
      requires Valid()
    {
      Read(users[..registered])
    }

    constructor ()
      ensures Valid() && fresh(users) && View() == []
    {
      users := new Record[MAX_USERS](_ => BLANK);
      registered := 0;
    }

    /** socksv5_register_user: 0, 1 when full, -1 when the name exists. */
    method Register(uname: seq<byte>, passwd: seq<byte>) returns (code: int)
      requires Valid() && Text(uname) && Text(passwd)
      modifies this, users
      ensures Valid() && View() == Added(old(View()), User(uname, passwd), MAX_USERS)
      ensures code == if |old(View())| >= MAX_USERS then 1 else if Has(old(View()), uname) then -1 else 0
    {
      if registered >= MAX_USERS {
        return 1;
      }
      var i := Search(users, 0, registered, uname);
      IndexIs(View(), uname, i);
      if i < registered {
        return -1;
      }
      users[registered] := Record(Strncpy(uname, NAME), Strncpy(passwd, NAME));
      registered := registered + 1;
      StoreAppends(old(users[..registered]), users[..registered], uname, passwd, NAME);
      return 0;
    }

    /** socksv5_unregister_user: 0, or -1 when there is no such name. */
    method Unregister(uname: seq<byte>) returns (code: int)
      requires Valid()
      modifies this, users
      ensures Valid() && View() == Without(old(View()), uname)
      ensures code == if Has(old(View()), uname) then 0 else -1
    {
      var i := Search(users, 0, registered, uname);
      IndexIs(View(), uname, i);
      if i == registered {
        return -1;
      }
      hide Short, CString;
      ghost var before := users[..registered];
      assert before[..i] == users[..i] && before[i + 1..] == users[i + 1..registered];
      ShiftDown(users, i, registered);
      registered := registered - 1;
      ShiftRemoves(before, users[..registered], i);
      return 0;
    }

    /** The loop of auth_process, on the two raw fields of the credentials. */
    method Authenticate(uname: seq<byte>, passwd: seq<byte>) returns (ok: bool)
      requires Valid()
      ensures ok <==> User(CString(uname), CString(passwd)) in View()
    {
      ok := false;
      for i := 0 to registered
        invariant !ok && forall k :: 0 <= k < i ==> View()[k] != User(CString(uname), CString(passwd))
      {
        if CString(uname) == CString(users[i].uname) && CString(passwd) == CString(users[i].secret) {
          assert View()[i] == User(CString(uname), CString(passwd));
          return true;
        }
      }
    }

    /** socksv5_get_users */
    method GetUsers(unames: array<byte>) returns (dlen: nat)
      requires Valid() && unames.Length == MAX_USERS * NAME
      modifies unames
      ensures Valid() && dlen <= unames.Length && unames[..dlen] == Listing(Names(View()))
    {
      dlen := JoinNames(users, registered, unames);
    }
  }

  /** Administrators: the first one registered is always called root, and root stays. */
  ghost predicate RootFirst(admins: seq<User>) {
    admins != [] ==> admins[0].name == ROOT
  }

  ghost predicate FullTokens(admins: seq<User>) {
    forall i :: 0 <= i < |admins| ==> |admins[i].pass| == TOKEN
  }

  /** monitor_register_admin, on values. */
  function AdminAdded(admins: seq<User>, a: User): seq<User> {
    if |a.pass| != TOKEN then admins
    else Added(admins, if admins == [] then a.(name := ROOT) else a, MAX_ADMINS)
  }

  function AdminRemoved(admins: seq<User>, name: seq<byte>): seq<User> {
    if name == ROOT then admins else Without(admins, name)
  }

  ghost predicate AdminsOk(admins: seq<User>) {
    Short(admins) && Distinct(admins) && RootFirst(admins) && FullTokens(admins)
  }

  lemma AdminAddKeeps(admins: seq<User>, a: User)
    requires AdminsOk(admins) && |a.name| < NAME
    ensures AdminsOk(AdminAdded(admins, a))
  {
    var b := if admins == [] then a.(name := ROOT) else a;
    if |a.pass| == TOKEN && |admins| < MAX_ADMINS && !Has(admins, b.name) {
      var next := admins + [b];
      assert forall i :: 0 <= i < |next| ==> next[i] == if i < |admins| then admins[i] else b;
    }
  }

  lemma AdminRemoveKeeps(admins: seq<User>, name: seq<byte>)
    requires AdminsOk(admins)
    ensures AdminsOk(AdminRemoved(admins, name))
  {
    var i := IndexOf(admins, name);
    if name != ROOT && i < |admins| {
      DropKeepsDistinct(admins, i);
      var next := admins[..i] + admins[i + 1..];
      assert forall k :: 0 <= k < |next| ==> next[k] == admins[if k < i then k else k + 1];
    }
  }

  function AdminsAfter(admins: seq<User>, chs: seq<Change>): seq<User>
    decreases chs
  {
    if chs == [] then admins
    else AdminsAfter(match chs[0] case Add(u) => AdminAdded(admins, u) case Remove(n) => AdminRemoved(admins, n),
                     chs[1..])
  }

  /** Over any sequence of changes root, once there, stays at index 0 with the token it was given. */
  lemma {:induction false} RootStays(admins: seq<User>, chs: seq<Change>)
    requires AdminsOk(admins) && forall i :: 0 <= i < |chs| && chs[i].Add? ==> |chs[i].u.name| < NAME
    ensures var end := AdminsAfter(admins, chs);
            && AdminsOk(end)
            && (admins != [] ==> end != [] && end[0] == admins[0])
    decreases chs
  {
    if chs != [] {
      match chs[0] {
        case Add(u) =>
          AdminAddKeeps(admins, u);
          RootStays(AdminAdded(admins, u), chs[1..]);
        case Remove(n) =>
          AdminRemoveKeeps(admins, n);
          RootStays(AdminRemoved(admins, n), chs[1..]);
      }
    }
  }

  /** The table as a map: sixteen characters for a token, the first one is root, and root cannot be removed. */
  ghost function AdminReference(r: Ordered, ch: Change): Ordered {
    match ch
    case Add(u) =>
      if |u.pass| != 16 then r
      else Reference(r, Add(if r.order == [] then u.(name := [114, 111, 111, 116]) else u), 3)
    case Remove(name) => if name == [114, 111, 111, 116] then r else Reference(r, ch, 0)
  }

  ghost function AdminReferenceRun(r: Ordered, chs: seq<Change>): Ordered
    decreases chs
  {
    if chs == [] then r else AdminReferenceRun(AdminReference(r, chs[0]), chs[1..])
  }

  /** Any sequence of changes: the administrators are the bounded insertion-ordered map. */
  lemma {:induction false} AdminsRefineOrderedMap(admins: seq<User>, r: Ordered, chs: seq<Change>)
    requires Represents(admins, r) && |admins| <= 3
    ensures Represents(AdminsAfter(admins, chs), AdminReferenceRun(r, chs)) && |AdminsAfter(admins, chs)| <= 3
    decreases chs
  {
    hide Represents, Reference;
    if chs != [] {
      match chs[0] {
        case Add(u) =>
          var a := if admins == [] then u.(name := ROOT) else u;
          AddRefines(admins, r, a, 3);
          assert |r.order| == |admins| by { OrderLength(admins, r); }
          AdminsRefineOrderedMap(AdminAdded(admins, u), AdminReference(r, chs[0]), chs[1..]);
        case Remove(n) =>
          RemoveRefines(admins, r, n);
          AdminsRefineOrderedMap(AdminRemoved(admins, n), AdminReference(r, chs[0]), chs[1..]);
      }
    }
  }

  lemma OrderLength(users: seq<User>, r: Ordered)
    requires Represents(users, r)
    ensures |r.order| == |users|
  {
  }

  class AdminTable {
    const admins: array<Record>
    var registered: nat

    ghost predicate Valid()
      reads this, admins
    {
      admins.Length == MAX_ADMINS && registered <= MAX_ADMINS && AdminsOk(Read(admins[..registered]))
    }

    ghost function View(): seq<User>
      reads this, admins
      requires Valid()
    {
      Read(admins[..registered])
    }

    constructor ()
      ensures Valid() && fresh(admins) && View() == []
    {
      admins := new Record[MAX_ADMINS](_ => BLANK);
      registered := 0;
    }

    method Register(uname: seq<byte>, token: seq<byte>) returns (code: int)
      requires Valid() && Text(uname) && Text(token)
      modifies this, admins
      ensures Valid() && View() == AdminAdded(old(View()), User(uname, token))
      ensures code == if |old(View())| >= MAX_ADMINS then 1
                      else if |token| != TOKEN || Has(old(View()), uname) then -1 else 0
    {
      if registered >= MAX_ADMINS {
        return 1;
      }
      if |token| != TOKEN {
        return -1;
      }
      var i := Search(admins, 0, registered, uname);
      IndexIs(View(), uname, i);
      if i < registered {
        return -1;
      }
      AdminAddKeeps(View(), User(uname, token));
      hide AdminsOk, CString, Strncpy, IndexOf;
      var name := if registered == 0 then ROOT else uname;
      admins[registered] := Record(Strncpy(name, NAME), Strncpy(token, TOKEN + 1));
      registered := registered + 1;
      StoreAppends(old(admins[..registered]), admins[..registered], name, token, TOKEN + 1);
      return 0;
    }

    method Unregister(uname: seq<byte>) returns (code: int)
      requires Valid()
      modifies this, admins
      ensures Valid() && View() == AdminRemoved(old(View()), uname)
      ensures code == if uname != ROOT && Has(old(View()), uname) then 0 else -1
    {
      if ROOT == uname {
        return -1;
      }
      if registered == 0 {
        return -1;
      }
      assert View()[0].name == ROOT;
      var i := Search(admins, 1, registered, uname);
      IndexIs(View(), uname, i);
      if i == registered {
        return -1;
      }
      AdminRemoveKeeps(View(), uname);
      hide AdminsOk, CString, IndexOf;
      ghost var before := admins[..registered];
      assert before[..i] == admins[..i] && before[i + 1..] == admins[i + 1..registered];
      ShiftDown(admins, i, registered);
      registered := registered - 1;
      ShiftRemoves(before, admins[..registered], i);
      return 0;
    }

    /** monitor_get_admins */
    method GetAdmins(unames: array<byte>) returns (dlen: nat)
      requires Valid() && unames.Length >= MAX_ADMINS * NAME
      modifies unames
      ensures Valid() && dlen <= MAX_ADMINS * NAME && unames[..dlen] == Listing(Names(View()))
    {
      dlen := JoinNames(admins, registered, unames);
    }

    /** monitor_is_admin: strncmp looks at sixteen characters, which is all of a token. */
    method IsAdmin(token: seq<byte>) returns (ok: bool)
      requires Valid() && |token| == TOKEN
      ensures ok <==> exists i :: 0 <= i < |View()| && View()[i].pass == token
    {
      ok := false;
      for i := 0 to registered
        invariant !ok && forall k :: 0 <= k < i ==> View()[k].pass != token
      {
        assert View()[i].pass == CString(admins[i].secret);
        if CString(token) == CString(admins[i].secret) {
          assert View()[i].pass == token;
          return true;
        }
        if View()[i].pass == token {
          CStringOf(token, token);
          assert false;
        }
      }
    }
  }

  // ---------------------------------------------------------------- the listing

  /** Names joined by one NUL, with none at the end. */
  function Listing(names: seq<seq<byte>>): seq<byte> {
    if |names| == 0 then [] else if |names| == 1 then names[0] else names[0] + [0] + Listing(names[1..])
  }

  /** Every name followed by its NUL: what the calls to strcpy leave behind. */
  ghost function Terminated(names: seq<seq<byte>>): seq<byte> {
    if names == [] then [] else names[0] + [0] + Terminated(names[1..])
  }

  lemma {:induction false} TerminatedExtends(names: seq<seq<byte>>, name: seq<byte>)
    ensures Terminated(names + [name]) == Terminated(names) + name + [0]
  {
    if names != [] {
      assert (names + [name])[1..] == names[1..] + [name];
      TerminatedExtends(names[1..], name);
    }
  }

  lemma {:induction false} ListingIsTerminated(names: seq<seq<byte>>)
    requires names != []
    ensures Terminated(names) == Listing(names) + [0]
  {
    if |names| > 1 {
      ListingIsTerminated(names[1..]);
    } else {
      assert names[1..] == [];
    }
  }

  /** strcpy into the middle of a buffer. */
  method Strcpy(buf: array<byte>, at: nat, s: seq<byte>)
    requires at + |s| < buf.Length
    modifies buf
    ensures buf[..at + |s| + 1] == old(buf[..at]) + s + [0]
  {
    for i := 0 to |s|
      invariant buf[..at + i] == old(buf[..at]) + s[..i]
    {
      buf[at + i] := s[i];
      assert buf[..at + i + 1] == buf[..at + i] + [s[i]];
    }
    buf[at + |s|] := 0;
    assert buf[..at + |s| + 1] == buf[..at + |s|] + [0];
  }

  /** strcpy of one name behind those that are there. */
  method AppendName(r: Record, buf: array<byte>, at: nat, ghost before: seq<seq<byte>>) returns (end: nat)
    requires |CString(r.uname)| < NAME && at + NAME <= buf.Length && buf[..at] == Terminated(before)
    modifies buf
    ensures at < end <= at + NAME && buf[..end] == Terminated(before + [CString(r.uname)])
  {
    var name := CString(r.uname);
    Strcpy(buf, at, name);
    TerminatedExtends(before, name);
    return at + |name| + 1;
  }

  lemma NameAt(records: seq<Record>, i: nat)
    requires i < |records| && Short(Read(records))
    ensures Names(Read(records))[i] == CString(records[i].uname) && |CString(records[i].uname)| < NAME
  {
    assert Read(records)[i].name == CString(records[i].uname);
  }

  /** The common loop of the two listings: copy each name with its NUL, drop the last NUL. */
  method JoinNames(a: array<Record>, n: nat, buf: array<byte>) returns (dlen: nat)
    requires n <= a.Length && n * NAME <= buf.Length && Short(Read(a[..n]))
    modifies buf
    ensures dlen <= n * NAME && buf[..dlen] == Listing(Names(Read(a[..n])))
  {
    dlen := 0;
    ghost var names := Names(Read(a[..n]));
    for i := 0 to n
      invariant dlen <= i * NAME && (i > 0 ==> dlen > 0)
      invariant buf[..dlen] == Terminated(names[..i])
    {
      NameAt(a[..n], i);
      dlen := AppendName(a[i], buf, dlen, names[..i]);
      assert names[..i] + [names[i]] == names[..i + 1];
    }
    assert names[..n] == names;
    dlen := if dlen > 1 then dlen - 1 else 0;
    if n > 0 {
      ListingIsTerminated(names);
    }
  }
}
