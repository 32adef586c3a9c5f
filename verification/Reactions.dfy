/**
 * What every reachable connection does with what its peers send and the kernel answers: which bytes are
 * taken, which state follows, what is said, and where it connects to.
 */
module Reactions {
  import opened Bytes
  import opened Buffers
  import opened Incremental
  import opened Selector
  import opened Session
  import opened SessionInvariant
  import opened SessionProofs
  import opened SessionEngine
  import opened World
  import opened WorldInvariant
  import opened WorldProofs
  import opened Guarantees
  import opened Completeness
  import opened Progress
  import Accounts
  import H = Hello
  import A = Auth
  import R = Request

  // ---------------------------------------------------------------- one event in the world

  /** A connection whose descriptor `fd` may be read, or written, now. */
  ghost predicate MayRead(w: World, k: nat, fd: int) {
    && Reachable(w) && w.main.Idle? && k < |w.conns| && w.conns[k].live
    && fd in w.t && w.t[fd].data == k + 1 && w.t[fd].interest.read
  }

  ghost predicate MayWrite(w: World, k: nat, fd: int, io: Io) {
    && Reachable(w) && w.main.Idle? && k < |w.conns| && w.conns[k].live
    && fd in w.t && w.t[fd].data == k + 1 && w.t[fd].interest.write && RetryWorks(w.conns[k], w.t, io)
  }

  /** The event was the connection's: this is what it is now, and where it stands in the table. */
  ghost predicate Became(w: World, k: nat, o: Out, r: Result) {
    && r.Ok? && Reachable(r.w) && o.Out? && |r.w.conns| == |w.conns| && k < |w.conns|
    && r.w.conns[k] == o.c && r.w.t == o.t && r.w.g == o.g
    && (o.c.live <==> o.c.phase != Done && o.c.phase != Error)
    && (o.c.live ==> ConnInv(o.c, o.t, k + 1, o.g.authOn))
    && |r.w.workers| == |w.workers| == |w.conns|
    && (if o.c.spawned && !w.conns[k].spawned then r.w.main == Spawning(k) && r.w.workers[k] == Started
        else r.w.main == Idle && r.w.workers == w.workers)
  }

  lemma KeptBecame(w: World, k: nat, s: Step, o: Out)
    requires Reachable(w) && Enabled(w, s) && Next(w, s).Ok? && Runs(w, s, k, o, Idle) && Kept(o, w.t, k + 1)
    ensures Became(w, k, o, Next(w, s))
  {
    hide Reachable, Next, Enabled, Frame, Release, ConnInv, Kept;
    NeverAborts(w, s);
    LivePhase(o, w.t, k + 1);
  }

  lemma LivePhase(o: Out, t: Table, id: nat)
    requires Kept(o, t, id)
    ensures o.Out? && (o.c.live <==> o.c.phase != Done && o.c.phase != Error)
    ensures o.c.live ==> ConnInv(o.c, o.t, id, o.g.authOn)
  {
    hide Common, Registered, Frame, Conserved, Ended;
  }

  lemma MayReadHas(w: World, k: nat, fd: int, io: Io)
    requires MayRead(w, k, fd)
    ensures Enabled(w, Readable(fd, io)) && Attached(w.t, fd) == k && Reachable(w)
  {
    hide Reachable;
  }

  lemma MayWriteHas(w: World, k: nat, fd: int, io: Io)
    requires MayWrite(w, k, fd, io)
    ensures Enabled(w, Writable(fd, io)) && Attached(w.t, fd) == k && Reachable(w)
  {
    hide Reachable, RetryWorks;
  }

  lemma ReadHappens(w: World, k: nat, fd: int, io: Io)
    requires MayRead(w, k, fd)
    ensures Became(w, k, OnRead(w.conns[k], w.t, w.g, k + 1, fd, io), Next(w, Readable(fd, io)))
    ensures ConnInv(w.conns[k], w.t, k + 1, w.g.authOn) && !w.conns[k].spawned
  {
    hide Reachable, ConnInv, OnRead, Kept, Put, Inv, Became, Tallied, InFlight, Next, Enabled, Attached;
    MayReadHas(w, k, fd, io);
    ReachableInv(w);
    ReachableConn(w, k);
    ReadableKept(w, fd, io);
    NobodySpawned(w, k);
    NeverAborts(w, Readable(fd, io));
    ReadableRuns(w, fd, io);
    KeptBecame(w, k, Readable(fd, io), OnRead(w.conns[k], w.t, w.g, k + 1, fd, io));
  }

  lemma WriteHappens(w: World, k: nat, fd: int, io: Io)
    requires MayWrite(w, k, fd, io)
    ensures Became(w, k, OnWrite(w.conns[k], w.t, w.g, k + 1, fd, io), Next(w, Writable(fd, io)))
    ensures ConnInv(w.conns[k], w.t, k + 1, w.g.authOn)
  {
    hide Reachable, ConnInv, OnWrite, Kept, Put, Inv, Became, Tallied, InFlight, Next, Enabled, Attached, RetryWorks;
    MayWriteHas(w, k, fd, io);
    ReachableInv(w);
    ReachableConn(w, k);
    WritableKept(w, fd, io);
    NeverAborts(w, Writable(fd, io));
    WritableRuns(w, fd, io);
    KeptBecame(w, k, Writable(fd, io), OnWrite(w.conns[k], w.t, w.g, k + 1, fd, io));
  }

  /** Live, in that state, the client watched for that. */
  ghost predicate At(w: World, k: nat, phase: Phase, i: Interest) {
    && k < |w.conns| && w.conns[k].live && w.conns[k].phase == phase
    && InterestOf(w.conns[k].clientFd, w.t) == i
  }

  ghost predicate Released(w: World, k: nat) {
    k < |w.conns| && !w.conns[k].live
  }

  /** Where a connection stands follows from its state. */
  lemma StandsAt(w: World, k: nat)
    requires k < |w.conns| && w.conns[k].live && ConnInv(w.conns[k], w.t, k + 1, w.g.authOn)
    ensures var p := w.conns[k].phase;
            && (p in {Fresh, HelloRead, AuthRead} || (p == RequestRead && !w.conns[k].spawned) ==> At(w, k, p, READ))
            && (p in {HelloWrite, AuthWrite, RequestWrite} ==> At(w, k, p, WRITE))
  {
    hide H.Parsed, A.Parsed, R.Parsed, Common, Registered, Aimed, Admitted;
  }

  // ---------------------------------------------------------------- a new client

  /** What a connection is when it begins: nothing has come or gone, and its client alone is attached. */
  predicate Begins(c: Conn, fd: int) {
    && c.live && c.phase == Fresh && c.clientFd == fd && c.originFd == -1 && c.references == 1
    && c.rb == c.wb == Empty(RAW_BUFFER_SIZE) && c.log.fromClient == c.log.hello == c.log.replies == []
  }

  /**
   * accept: a valid descriptor that nobody uses gets a connection, watched for reading, in an object taken
   * from the pool or else from memory; in any other case no connection is added and nothing is watched.
   */
  lemma AcceptServes(w: World, fd: int, obj: nat, memory: bool)
    requires Reachable(w) && Enabled(w, Accept(fd, obj, memory))
    ensures var r := Next(w, Accept(fd, obj, memory));
            && r.Ok? && Reachable(r.w) && r.w.g == w.g && r.w.jobs == w.jobs && r.w.main == w.main
            && if 0 <= fd < 1024 && fd !in w.t && (w.pool != [] || memory) then
                 && |r.w.conns| == |w.conns| + 1 && r.w.conns[..|w.conns|] == w.conns
                 && Begins(r.w.conns[|w.conns|], fd)
                 && r.w.workers == w.workers + [NoWorker] && r.w.t == w.t[fd := Item(READ, |w.conns| + 1)]
                 && r.w.poolSize == w.poolSize
                 && (if w.pool != [] then [r.w.conns[|w.conns|].obj] + r.w.pool == w.pool
                     else r.w.conns[|w.conns|].obj == obj && r.w.pool == [])
               else r.w.conns == w.conns && r.w.workers == w.workers && r.w.t == w.t
  {
    NeverAborts(w, Accept(fd, obj, memory));
    hide Reachable, Enabled;
  }

  // ---------------------------------------------------------------- the user table

  /** What the monitor does to the table during a run. */
  function Edits(steps: seq<Step>): seq<Accounts.Change> {
    if steps == [] then []
    else (if steps[0].Edit? then [steps[0].ch] else []) + Edits(steps[1..])
  }

  lemma OthersKeepUsers(w: World, s: Step)
    requires !RunsHandler(s) && !s.Edit? && Next(w, s).Ok?
    ensures Next(w, s).w.g.users == w.g.users
  {
    hide OnRead, OnWrite, OnBlock, FinishSpawn, AfterRegister, Release;
  }

  /** Over every run the user table is what its edits, in their order, make of the table at the start. */
  lemma {:induction false} UsersFollowEdits(w: World, steps: seq<Step>)
    requires Inv(w) && Possible(w, steps)
    ensures Run(w, steps).Ok?
    ensures Run(w, steps).w.g.users == Accounts.ChangedBy(w.g.users, Edits(steps), Accounts.MAX_USERS)
    decreases |steps|
  {
    hide Inv, Enabled, Next, IsEvent, Accounts.Changed;
    if steps != [] {
      var s := steps[0];
      StepKeeps(w, s);
      UsersFollowEdits(Next(w, s).w, steps[1..]);
      if s.Edit? {
        EditIs(w, s.ch);
        assert Edits(steps)[0] == s.ch && Edits(steps)[1..] == Edits(steps[1..]);
      } else {
        assert Edits(steps) == Edits(steps[1..]);
        if RunsHandler(s) {
          var k, o, main := EventOf(w, s);
          EventKeepsUsers(w, s, k, o, main);
        } else {
          OthersKeepUsers(w, s);
        }
      }
    }
  }

  lemma EditIs(w: World, ch: Accounts.Change)
    ensures Next(w, Edit(ch)).Ok? && Next(w, Edit(ch)).w.g.users == Accounts.Changed(w.g.users, ch, Accounts.MAX_USERS)
  {
  }

  lemma EventKeepsUsers(w: World, s: Step, k: nat, o: Out, main: Main)
    requires IsEvent(w, s, k, o, main)
    ensures Next(w, s).w.g.users == w.g.users
  {
    hide Next, Release;
  }

  /** A pair is in the table exactly if the edits, as changes of a bounded map, bind it. */
  lemma UsersAreBound(users: seq<User>, r: Accounts.Ordered, t: Table, steps: seq<Step>, w: World,
                      u: seq<byte>, pw: seq<byte>)
    requires RunsTo(users, t, steps, w) && Accounts.Represents(users, r) && |users| <= Accounts.MAX_USERS
    ensures var m := Accounts.ReferenceRun(r, Edits(steps), Accounts.MAX_USERS).binds;
            Accounts.User(u, pw) in w.g.users <==> u in m && m[u] == pw
  {
    hide Inv, Run, Possible, Accounts.Represents, Accounts.ReferenceRun, Accounts.ChangedBy, Edits;
    StartKeeps(users, t);
    UsersFollowEdits(Start(users, t), steps);
    Accounts.TableRefinesOrderedMap(users, r, Edits(steps), Accounts.MAX_USERS);
    Accounts.AuthenticatesIffBound(w.g.users, Accounts.ReferenceRun(r, Edits(steps), Accounts.MAX_USERS), u, pw);
  }

  // ---------------------------------------------------------------- the offer

  lemma FirstRead(c: Conn, t: Table, g: Globals, id: nat, io: Io)
    requires ConnInv(c, t, id, g.authOn) && (c.phase == Fresh || c.phase == HelloRead)
    ensures var d, g1 := HandleFirst(c, g), FirstGlobals(c, g);
            && ConnInv(d, t, id, g1.authOn) && d.phase == HelloRead && d.rb == c.rb && d.log.hello == c.log.hello
            && d.clientFd == c.clientFd && d.log.toClient == c.log.toClient
            && OnRead(c, t, g, id, c.clientFd, io) == Settle(Jump(HelloReadH(d, t, g1, c.clientFd, io)))
  {
    if c.phase == Fresh {
      FirstKeeps(c, t, g, id);
    }
    hide ConnInv, HelloReadH, Settle, Jump;
  }

  /** hello_read, from the first event of a connection on, of the connection alone. */
  lemma OfferGoes(c: Conn, t: Table, g: Globals, id: nat, io: Io)
    requires ConnInv(c, t, id, g.authOn) && c.phase in {Fresh, HelloRead}
    ensures var m := Message(c.log.hello, c.rb, io.recv);
            var o := OnRead(c, t, g, id, c.clientFd, io);
            && o.Out? && o.g.authOn == (g.authOn && !(c.phase == Fresh && g.users == []))
            && if Room(c.rb, io.recv) == 0 || WrongVersion(m, 5) then o.c.phase == Error
               else if OfferComplete(m) then o.c.phase == HelloWrite && o.c.wb.bytes == [5, o.c.log.chosen]
               else o.c.phase == HelloRead && o.c.log.hello == m && o.c.rb.bytes == []
  {
    hide ConnInv, OnRead, HelloReadH, Settle, Jump, OfferComplete, WrongVersion, Message;
    FirstRead(c, t, g, id, io);
    HelloReadGoes(HandleFirst(c, g), t, FirstGlobals(c, g), id, io);
    HelloReadKeeps(HandleFirst(c, g), t, FirstGlobals(c, g), id, io);
    JumpKeepsHistory(HelloReadH(HandleFirst(c, g), t, FirstGlobals(c, g), c.clientFd, io));
    SettleKeeps(Jump(HelloReadH(HandleFirst(c, g), t, FirstGlobals(c, g), c.clientFd, io)), t, id);
    hide HandleFirst, Jumped, Kept;
  }

  /** Reading the offer, from the first event of a connection on. */
  lemma OfferIsRead(w: World, k: nat, io: Io)
    requires k < |w.conns| && MayRead(w, k, w.conns[k].clientFd) && w.conns[k].phase in {Fresh, HelloRead}
    ensures var c := w.conns[k];
            var m := Message(c.log.hello, c.rb, io.recv);
            var r := Next(w, Readable(c.clientFd, io));
            && r.Ok? && k < |r.w.conns|
            && var d := r.w.conns[k];
               if Room(c.rb, io.recv) == 0 || WrongVersion(m, 5) then !d.live
               else if OfferComplete(m) then At(r.w, k, HelloWrite, WRITE) && d.wb.bytes == [5, d.log.chosen]
               else At(r.w, k, HelloRead, READ) && d.log.hello == m && d.rb.bytes == []
    ensures var r := Next(w, Readable(w.conns[k].clientFd, io));
            r.w.g.authOn == (w.g.authOn && !(w.conns[k].phase == Fresh && w.g.users == []))
  {
    var c := w.conns[k];
    hide Reachable, ConnInv, OnRead, Next, Message, OfferComplete, WrongVersion;
    ReadHappens(w, k, c.clientFd, io);
    OfferGoes(c, w.t, w.g, k + 1, io);
    var w' := Next(w, Readable(c.clientFd, io)).w;
    if w'.conns[k].live {
      StandsAt(w', k);
    }
    hide At;
  }

  // ---------------------------------------------------------------- credentials

  lemma LaterRead(c: Conn, t: Table, g: Globals, id: nat, io: Io)
    requires c.phase != Fresh
    ensures c.phase == AuthRead ==>
              OnRead(c, t, g, id, c.clientFd, io) == Settle(Jump(AuthReadH(c, t, g, c.clientFd, io)))
    ensures c.phase == RequestRead ==>
              OnRead(c, t, g, id, c.clientFd, io) == Settle(Jump(RequestReadH(c, t, g, id, io)))
  {
    hide AuthReadH, RequestReadH, Settle, Jump;
  }

  /** Reading credentials: they are answered when complete, by the user table of that moment. */
  lemma CredentialsAreRead(w: World, k: nat, io: Io)
    requires k < |w.conns| && MayRead(w, k, w.conns[k].clientFd) && w.conns[k].phase == AuthRead
    ensures var c := w.conns[k];
            var m := Message(c.log.auth, c.rb, io.recv);
            var r := Next(w, Readable(c.clientFd, io));
            && r.Ok? && k < |r.w.conns|
            && var d := r.w.conns[k];
               if Room(c.rb, io.recv) == 0 || WrongVersion(m, 1) then !d.live
               else if CredentialsComplete(m) then
                 && At(r.w, k, AuthWrite, WRITE)
                 && d.wb.bytes == if Stored(w.g.users, A.Parsed(A.INIT, m).st) then [1, 0] else [1, 1]
               else At(r.w, k, AuthRead, READ) && d.log.auth == m && d.rb.bytes == []
  {
    var c := w.conns[k];
    hide Reachable, ConnInv, OnRead, AuthReadH, Settle, Jump, Next, A.Parsed, Stored;
    ReadHappens(w, k, c.clientFd, io);
    LaterRead(c, w.t, w.g, k + 1, io);
    AuthReadGoes(c, w.t, w.g, k + 1, io);
    var w' := Next(w, Readable(c.clientFd, io)).w;
    if w'.conns[k].live {
      StandsAt(w', k);
    }
    hide Message, At;
  }

  lemma StoredIff(users: seq<User>, cred: A.Credentials)
    ensures Stored(users, cred) <==> Accounts.User(CString(cred.uname), CString(cred.passwd)) in users
  {
    hide CString;
    if Stored(users, cred) {
      var i :| 0 <= i < |users| && users[i].name == CString(cred.uname) && users[i].pass == CString(cred.passwd);
      assert users[i] == Accounts.User(CString(cred.uname), CString(cred.passwd));
    }
  }

  lemma EncodedCredentials(u: seq<byte>, pw: seq<byte>, rest: seq<byte>)
    requires 1 <= |u| <= 255 && 1 <= |pw| <= 255 && NulFree(u) && NulFree(pw)
    ensures var m := A.Encode(u, pw) + rest;
            && CredentialsComplete(m) && !WrongVersion(m, 1)
            && forall users :: Stored(users, A.Parsed(A.INIT, m).st) <==> Accounts.User(u, pw) in users
  {
    A.AuthRoundTrip(u, pw, rest);
    CredentialsStateIff(A.Encode(u, pw) + rest);
    CStringOfPad(u, A.FIELD);
    CStringOfPad(pw, A.FIELD);
    hide A.Parsed, CString, A.Encode, CredentialsComplete, WrongVersion, Stored;
    var cred := A.Parsed(A.INIT, A.Encode(u, pw) + rest).st;
    forall users ensures Stored(users, cred) <==> Accounts.User(u, pw) in users {
      StoredIff(users, cred);
    }
  }

  /**
   * Credentials a client has sent in full are answered `01 00` exactly if that pair is in the user table
   * at that step, and `01 01` otherwise.
   */
  lemma CredentialsAreJudged(w: World, k: nat, io: Io, u: seq<byte>, pw: seq<byte>, rest: seq<byte>)
    requires k < |w.conns| && MayRead(w, k, w.conns[k].clientFd) && w.conns[k].phase == AuthRead
    requires 1 <= |u| <= 255 && 1 <= |pw| <= 255 && NulFree(u) && NulFree(pw)
    requires Room(w.conns[k].rb, io.recv) > 0
    requires Message(w.conns[k].log.auth, w.conns[k].rb, io.recv) == A.Encode(u, pw) + rest
    ensures var r := Next(w, Readable(w.conns[k].clientFd, io));
            && r.Ok? && At(r.w, k, AuthWrite, WRITE)
            && r.w.conns[k].wb.bytes == if Accounts.User(u, pw) in w.g.users then [1, 0] else [1, 1]
  {
    hide MayRead, At, A.Parsed, A.Encode, Message, Next, Stored, CredentialsComplete, WrongVersion;
    CredentialsAreRead(w, k, io);
    EncodedCredentials(u, pw, rest);
  }

  // ---------------------------------------------------------------- sending

  /** What the client has been told, or will be. */
  function Said(c: Conn): seq<byte> {
    c.log.toClient + c.wb.bytes
  }

  lemma SaidIs(c: Conn, t: Table, id: nat, authOn: bool)
    requires ConnInv(c, t, id, authOn)
    ensures c.phase == HelloWrite ==> Said(c) == [5, c.log.chosen] && c.log.auth == c.log.request == []
    ensures c.phase == AuthWrite ==>
              c.client.AuthSt? && Said(c) == [5, c.log.chosen, 1, c.client.verdict] && c.log.request == []
    ensures c.phase == RequestWrite ==>
              c.client.RequestSt? && !c.log.touched && |Said(c)| >= 10
              && Said(c)[|Said(c)| - 10..] == TenBytes(c.client.status)
  {
    hide H.Parsed, A.Parsed, R.Parsed, H.Negotiated, Owned, Aimed, Admitted, ChosenRight, Spent, HelloTracks;
    if c.phase in {HelloWrite, AuthWrite, RequestWrite} {
      assert Said(c) == c.log.replies + c.log.fromOrigin == c.log.replies;
    }
  }

  /** Sending fails and ends the connection, or leaves the rest of what waits. */
  ghost predicate PartSent(w: World, k: nat, w': World, willing: int) {
    && k < |w.conns| && k < |w'.conns| && 0 <= willing < |w.conns[k].wb.bytes|
    && var c, d := w.conns[k], w'.conns[k];
       && At(w', k, c.phase, WRITE) && Said(d) == Said(c) && d.wb.bytes == c.wb.bytes[willing..]
  }

  lemma FlushingSaid(c: Conn, t: Table, g: Globals, o: Out, willing: int)
    requires 0 <= willing < |c.wb.bytes| && Flushing(c, t, g, o, willing)
    ensures o.c.wb.bytes == c.wb.bytes[willing..] && Said(o.c) == Said(c) && o.c.phase == c.phase && o.c.live == c.live
  {
    assert c.wb.bytes == c.wb.bytes[..willing] + c.wb.bytes[willing..];
  }

  lemma WritesAre(c: Conn, t: Table, g: Globals, id: nat, io: Io)
    requires c.phase != Fresh
    ensures c.phase == HelloWrite ==>
              OnWrite(c, t, g, id, c.clientFd, io) == Settle(Jump(HelloWriteH(c, t, g, c.clientFd, io)))
    ensures c.phase == AuthWrite ==>
              OnWrite(c, t, g, id, c.clientFd, io) == Settle(Jump(AuthWriteH(c, t, g, c.clientFd, io)))
    ensures c.phase == RequestWrite ==> OnWrite(c, t, g, id, c.clientFd, io) == Settle(Jump(RequestWriteH(c, t, g, io)))
    ensures c.phase == RequestConnecting ==>
              OnWrite(c, t, g, id, c.originFd, io) == Settle(Jump(ConnectingH(c, t, g, id, c.originFd, io)))
  {
    hide HelloWriteH, AuthWriteH, RequestWriteH, ConnectingH, Settle, Jump;
  }

  lemma PartWasSent(w: World, k: nat, o: Out, w': World, willing: int)
    requires k < |w.conns| && k < |w'.conns| && 0 <= willing < |w.conns[k].wb.bytes| && w.conns[k].live
    requires w.conns[k].phase in {HelloWrite, AuthWrite, RequestWrite} && o.Out? && w'.conns[k] == o.c
    requires Flushing(w.conns[k], w.t, w.g, o, willing)
    requires o.c.live ==> ConnInv(o.c, w'.t, k + 1, w'.g.authOn)
    ensures PartSent(w, k, w', willing)
  {
    FlushingSaid(w.conns[k], w.t, w.g, o, willing);
    hide ConnInv, Flushing;
    StandsAt(w', k);
  }

  /** hello_write, of the connection alone. */
  lemma MethodGoes(c: Conn, t: Table, g: Globals, id: nat, io: Io)
    requires ConnInv(c, t, id, g.authOn) && c.phase == HelloWrite
    ensures var o := OnWrite(c, t, g, id, c.clientFd, io);
            && Said(c) == [5, c.log.chosen] && o.Out?
            && if io.send < 0 then o.c.phase == Error
               else if io.send < |c.wb.bytes| then Flushing(c, t, g, o, io.send)
               else
                 && o.c.phase == (if g.authOn then AuthRead else RequestRead)
                 && o.c.log.toClient == Said(c) && o.c.log.auth == o.c.log.request == []
  {
    SaidIs(c, t, id, g.authOn);
    hide ConnInv, OnWrite, HelloWriteH, Settle, Jump, Flushing;
    WritesAre(c, t, g, id, io);
    HelloWriteGoes(c, t, g, id, io);
  }

  /** The method, sent in full, is followed by credentials exactly if the flag is up at that moment. */
  lemma MethodIsSent(w: World, k: nat, io: Io)
    requires k < |w.conns| && MayWrite(w, k, w.conns[k].clientFd, io) && w.conns[k].phase == HelloWrite
    ensures var c := w.conns[k];
            var r := Next(w, Writable(c.clientFd, io));
            && Said(c) == [5, c.log.chosen]
            && r.Ok? && k < |r.w.conns|
            && var d := r.w.conns[k];
               if io.send < 0 then !d.live
               else if io.send < |c.wb.bytes| then PartSent(w, k, r.w, io.send)
               else
                 && At(r.w, k, if w.g.authOn then AuthRead else RequestRead, READ)
                 && d.log.toClient == Said(c) && d.log.auth == d.log.request == []
  {
    var c := w.conns[k];
    hide Reachable, ConnInv, OnWrite, Next, Flushing, PartSent, Said;
    WriteHappens(w, k, c.clientFd, io);
    MethodGoes(c, w.t, w.g, k + 1, io);
    var w' := Next(w, Writable(c.clientFd, io)).w;
    if w'.conns[k].live {
      StandsAt(w', k);
      NoThreadYet(w'.conns[k], w'.t, k + 1, w'.g.authOn);
    }
    if 0 <= io.send < |c.wb.bytes| {
      PartWasSent(w, k, OnWrite(c, w.t, w.g, k + 1, c.clientFd, io), w', io.send);
    }
    hide At;
  }

  lemma NoThreadYet(c: Conn, t: Table, id: nat, authOn: bool)
    requires ConnInv(c, t, id, authOn) && c.log.request == []
    ensures !c.spawned
  {
    hide H.Parsed, A.Parsed, H.Negotiated, Owned, Aimed, Admitted, ChosenRight, Streams, HelloTracks;
  }

  /** auth_write, of the connection alone. */
  lemma VerdictGoes(c: Conn, t: Table, g: Globals, id: nat, io: Io)
    requires ConnInv(c, t, id, g.authOn) && c.phase == AuthWrite
    ensures var o := OnWrite(c, t, g, id, c.clientFd, io);
            && |Said(c)| == 4 && Said(c) == [5, c.log.chosen, 1, Said(c)[3]]
            && o.Out?
            && if io.send < 0 then o.c.phase == Error
               else if io.send < |c.wb.bytes| then Flushing(c, t, g, o, io.send)
               else
                 && o.c.log.toClient == Said(c) && o.c.log.request == []
                 && o.c.phase == if Said(c)[3] == 0 then RequestRead else Error
  {
    SaidIs(c, t, id, g.authOn);
    hide ConnInv, OnWrite, AuthWriteH, Settle, Jump, Flushing;
    WritesAre(c, t, g, id, io);
    AuthWriteGoes(c, t, g, id, io);
  }

  /** The verdict, sent in full: requests are read after `01 00`, and the connection ends after anything else. */
  lemma VerdictIsSent(w: World, k: nat, io: Io)
    requires k < |w.conns| && MayWrite(w, k, w.conns[k].clientFd, io) && w.conns[k].phase == AuthWrite
    ensures var c := w.conns[k];
            var r := Next(w, Writable(c.clientFd, io));
            && |Said(c)| == 4 && Said(c) == [5, c.log.chosen, 1, Said(c)[3]]
            && r.Ok? && k < |r.w.conns|
            && var d := r.w.conns[k];
               if io.send < 0 then !d.live
               else if io.send < |c.wb.bytes| then PartSent(w, k, r.w, io.send)
               else
                 && d.log.toClient == Said(c)
                 && if Said(c)[3] == 0 then At(r.w, k, RequestRead, READ) && d.log.request == [] else !d.live
  {
    var c := w.conns[k];
    hide Reachable, ConnInv, OnWrite, Next, Flushing, PartSent, Said;
    WriteHappens(w, k, c.clientFd, io);
    VerdictGoes(c, w.t, w.g, k + 1, io);
    var w' := Next(w, Writable(c.clientFd, io)).w;
    if w'.conns[k].live {
      StandsAt(w', k);
      NoThreadYet(w'.conns[k], w'.t, k + 1, w'.g.authOn);
    }
    if 0 <= io.send < |c.wb.bytes| {
      PartWasSent(w, k, OnWrite(c, w.t, w.g, k + 1, c.clientFd, io), w', io.send);
    }
    hide At;
  }

  /** A relay as it begins: both ends are watched for reading, and nothing else. */
  ghost predicate Relays(w: World, k: nat) {
    && At(w, k, Copy, READ) && InterestOf(w.conns[k].originFd, w.t) == READ
    && w.conns[k].client == ClientCopy(BOTH) && w.conns[k].origin == OriginCopy(BOTH) && w.conns[k].wb.bytes == []
  }

  lemma RelayBegins(w: World, k: nat)
    requires k < |w.conns| && w.conns[k].live && ConnInv(w.conns[k], w.t, k + 1, w.g.authOn)
    requires w.conns[k].phase == Copy && !w.conns[k].log.touched
    ensures Relays(w, k)
  {
    hide H.Parsed, A.Parsed, R.Parsed, Common, Registered, Aimed, Admitted;
  }

  /** request_write, of the connection alone. */
  lemma ReplyGoes(c: Conn, t: Table, g: Globals, id: nat, io: Io)
    requires ConnInv(c, t, id, g.authOn) && c.phase == RequestWrite
    ensures var o := OnWrite(c, t, g, id, c.clientFd, io);
            var n := |Said(c)|;
            && n >= 10 && Said(c)[n - 10] == 5 && Said(c)[n - 8..] == [0, 1, 0, 0, 0, 0, 0, 0]
            && o.Out?
            && if io.send < 0 then o.c.phase == Error
               else if io.send < |c.wb.bytes| then Flushing(c, t, g, o, io.send)
               else
                 && o.c.log.toClient == Said(c) && !o.c.log.touched
                 && o.c.phase == if Said(c)[n - 9] == 0 then Copy else Error
  {
    SaidIs(c, t, id, g.authOn);
    hide ConnInv, OnWrite, RequestWriteH, Settle, Jump, Flushing, TenBytes;
    ReplyEnds(Said(c), c.client.status);
    WritesAre(c, t, g, id, io);
    RequestWriteGoes(c, t, g, id, io);
  }

  /** The reply to a request, sent in full: the relay begins after status 0, and the connection ends after any other. */
  lemma ReplyIsSent(w: World, k: nat, io: Io)
    requires k < |w.conns| && MayWrite(w, k, w.conns[k].clientFd, io) && w.conns[k].phase == RequestWrite
    ensures var c := w.conns[k];
            var r := Next(w, Writable(c.clientFd, io));
            var n := |Said(c)|;
            && n >= 10 && Said(c)[n - 10] == 5 && Said(c)[n - 8..] == [0, 1, 0, 0, 0, 0, 0, 0]
            && r.Ok? && k < |r.w.conns|
            && var d := r.w.conns[k];
               if io.send < 0 then !d.live
               else if io.send < |c.wb.bytes| then PartSent(w, k, r.w, io.send)
               else d.log.toClient == Said(c) && if Said(c)[n - 9] == 0 then Relays(r.w, k) else !d.live
  {
    var c := w.conns[k];
    hide Reachable, ConnInv, OnWrite, Next, Flushing, PartSent, Relays, Said;
    WriteHappens(w, k, c.clientFd, io);
    ReplyGoes(c, w.t, w.g, k + 1, io);
    var w' := Next(w, Writable(c.clientFd, io)).w;
    if w'.conns[k].live {
      StandsAt(w', k);
      if w'.conns[k].phase == Copy {
        RelayBegins(w', k);
      }
    }
    if 0 <= io.send < |c.wb.bytes| {
      PartWasSent(w, k, OnWrite(c, w.t, w.g, k + 1, c.clientFd, io), w', io.send);
    }
    hide At;
  }

  lemma ReplyEnds(said: seq<byte>, status: byte)
    requires |said| >= 10 && said[|said| - 10..] == TenBytes(status)
    ensures said[|said| - 10] == 5 && said[|said| - 9] == status && said[|said| - 8..] == [0, 1, 0, 0, 0, 0, 0, 0]
  {
    var tail := said[|said| - 10..];
    assert tail[0] == 5 && tail[1] == status && tail[2..] == said[|said| - 8..];
  }

  // ---------------------------------------------------------------- the request

  /** The reply is queued for the client, which is watched for it. */
  ghost predicate Answers(w: World, k: nat, status: byte) {
    At(w, k, RequestWrite, WRITE) && w.conns[k].wb.bytes == TenBytes(status)
  }

  /** The connection to the origin is in progress on that descriptor, which alone is watched. */
  ghost predicate Attempts(w: World, k: nat, fd: int, target: Addr) {
    && At(w, k, RequestConnecting, NOOP)
    && w.conns[k].originFd == fd && InterestOf(fd, w.t) == WRITE && w.conns[k].target == target
  }

  /** The thread that resolves the name is created, and the main loop stands where it was created. */
  ghost predicate Asks(w: World, k: nat) {
    && k < |w.conns| == |w.workers| && w.conns[k].live && w.conns[k].spawned
    && w.workers[k] == Started && w.main == Spawning(k)
  }

  /** A queued reply, sent in full: the client has been told exactly that, and the relay begins or all is released. */
  lemma AnswerIsTold(w: World, k: nat, status: byte, io: Io)
    requires Reachable(w) && w.main.Idle? && Answers(w, k, status) && io.send >= 10
    ensures var r := Next(w, Writable(w.conns[k].clientFd, io));
            && r.Ok? && k < |r.w.conns| && r.w.conns[k].log.toClient == w.conns[k].log.toClient + TenBytes(status)
            && if status == 0 then Relays(r.w, k) else Released(r.w, k)
  {
    hide Reachable, ConnInv, Next, Said, Relays;
    ReachableConn(w, k);
    ClientAttached(w.conns[k], w.t, k + 1, w.g.authOn);
    ReplyIsSent(w, k, io);
    ReplyEndsSo(w.conns[k], status);
  }

  lemma ClientAttached(c: Conn, t: Table, id: nat, authOn: bool)
    requires ConnInv(c, t, id, authOn)
    ensures c.clientFd in t && t[c.clientFd].data == id && InterestOf(c.clientFd, t) == t[c.clientFd].interest
  {
    hide Common, PhaseInv;
    assert Owned(c.clientFd, c.originFd, c.references, t, id);
  }

  lemma ReplyEndsSo(c: Conn, status: byte)
    requires c.wb.bytes == TenBytes(status)
    ensures Said(c) == c.log.toClient + TenBytes(status) && Said(c)[|Said(c)| - 9] == status
  {
  }

  /** Reading a request: released for nothing or an error, waiting as long as it is not complete. */
  lemma RequestIsRead(w: World, k: nat, io: Io)
    requires k < |w.conns| && MayRead(w, k, w.conns[k].clientFd) && w.conns[k].phase == RequestRead
    ensures var c := w.conns[k];
            var m := Message(c.log.request, c.rb, io.recv);
            var r := Next(w, Readable(c.clientFd, io));
            && r.Ok? && k < |r.w.conns|
            && var d := r.w.conns[k];
               && (Room(c.rb, io.recv) == 0 || WrongVersion(m, 5) || WrongType(m) ==> !d.live)
               && (Room(c.rb, io.recv) > 0 && !WrongVersion(m, 5) && !WrongType(m) && !RequestComplete(m) ==>
                     At(r.w, k, RequestRead, READ) && !d.spawned && d.log.request == m && d.rb.bytes == [])
  {
    var c := w.conns[k];
    hide Reachable, ConnInv, OnRead, RequestReadH, Settle, Jump, Next, R.Parsed, AfterRequest, RequestProcess;
    hide RequestComplete, WrongType, WrongVersion;
    ReadHappens(w, k, c.clientFd, io);
    LaterRead(c, w.t, w.g, k + 1, io);
    RequestReadGoes(c, w.t, w.g, k + 1, io);
    var w' := Next(w, Readable(c.clientFd, io)).w;
    if w'.conns[k].live {
      StandsAt(w', k);
    }
    hide Message, At;
  }

  /** A message that is a whole request: refused, attempted at the address it names, or given to a thread. */
  lemma RequestIsServed(w: World, k: nat, io: Io, cmd: byte, rsv: byte, dst: R.Dest, port: seq<byte>, rest: seq<byte>)
    requires k < |w.conns| && MayRead(w, k, w.conns[k].clientFd) && w.conns[k].phase == RequestRead
    requires dst.Valid() && |port| == 2 && Room(w.conns[k].rb, io.recv) > 0
    requires Message(w.conns[k].log.request, w.conns[k].rb, io.recv) == R.Encode(cmd, rsv, dst, port) + rest
    ensures var c := w.conns[k];
            var r := Next(w, Readable(c.clientFd, io));
            && r.Ok? && k < |r.w.conns|
            && if cmd != 1 then Answers(r.w, k, 7)
               else if dst.Name? then if io.memory then Asks(r.w, k) else Answers(r.w, k, 1)
               else Outcome(w, k, r.w, io.connect, Addr(dst.Type(), dst.ip, port))
  {
    var c := w.conns[k];
    hide Reachable, ConnInv, OnRead, RequestReadH, Settle, Jump, Next, R.Parsed, AfterRequest, Message, Acted;
    hide Outcome, R.Encode;
    ReadHappens(w, k, c.clientFd, io);
    LaterRead(c, w.t, w.g, k + 1, io);
    RequestActs(c, w.t, w.g, k + 1, io, cmd, rsv, dst, port, rest);
    var w' := Next(w, Readable(c.clientFd, io)).w;
    var d := AfterRequest(c, io.recv[..Room(c.rb, io.recv)]);
    ActedIs(w, k, d, OnRead(c, w.t, w.g, k + 1, c.clientFd, io), w', io, cmd, dst, port);
    hide At;
  }

  /** What an attempt comes to, by the answers of the kernel. */
  ghost predicate Outcome(w: World, k: nat, w': World, connect: ConnectIo, target: Addr) {
    match connect
    case NoSocket => Answers(w', k, 1)
    case Refused(e) => Answers(w', k, FailureByte(e))
    case InProgress(fd) => if Free(w.t, fd) then Attempts(w', k, fd, target) else Answers(w', k, 1)
  }

  lemma AttemptedIs(w: World, k: nat, d: Conn, o: Out, w': World, connect: ConnectIo, target: Addr)
    requires Attempted(d, w.t, o, k + 1, connect, target) && k < |w'.conns|
    requires o.Out? && w'.conns[k] == o.c && w'.t == o.t
    ensures Outcome(w, k, w', connect, target)
  {
    hide TenBytes, InterestOf;
  }

  lemma ActedIs(w: World, k: nat, d: Conn, o: Out, w': World, io: Io, cmd: byte, dst: R.Dest, port: seq<byte>)
    requires Acted(d, w.t, o, k + 1, io, cmd, dst, port) && k < |w.conns| == |w'.conns| && o.Out? && !w.conns[k].spawned
    requires w'.conns[k] == o.c && w'.t == o.t && |w'.workers| == |w'.conns|
    requires o.c.spawned ==> w'.main == Spawning(k) && w'.workers[k] == Started
    ensures if cmd != 1 then Answers(w', k, 7)
            else if dst.Name? then if io.memory then Asks(w', k) else Answers(w', k, 1)
            else Outcome(w, k, w', io.connect, Addr(dst.Type(), dst.ip, port))
  {
    hide TenBytes, InterestOf, Attempted, Outcome;
    if cmd == 1 && !dst.Name? {
      AttemptedIs(w, k, d, o, w', io.connect, Addr(dst.Type(), dst.ip, port));
    }
  }

  // ---------------------------------------------------------------- a name

  /** Once the thread exists the handler returns, and nothing of the connection is watched until the answer. */
  lemma ThreadRuns(w: World)
    requires Reachable(w) && w.main.Spawning?
    ensures var k := w.main.k;
            var r := Next(w, Proceed);
            && r.Ok? && r.w.main == Idle && k < |w.conns| && k < |r.w.conns|
            && At(r.w, k, RequestResolv, NOOP) && !r.w.conns[k].spawned
            && r.w.jobs == w.jobs && r.w.workers == w.workers
            && r.w.conns[k].resolution == w.conns[k].resolution
  {
    hide Reachable, Inv, ConnInv, FinishSpawn, Kept, Tallied;
    ReachableInv(w);
    SpawningIsLive(w);
    var k := w.main.k;
    NeverAborts(w, Proceed);
    OnSpawnedKeeps(w.conns[k], w.t, w.g, k + 1);
    var o := FinishSpawn(w.conns[k], w.t, w.g);
    KeepsList(w.conns[k], w.t, w.g);
    assert Next(w, Proceed).w == Put(w, k, o, Idle);
    KeptConn(o, w.t, k + 1);
    ResolvWaits(o.c, o.t, k + 1, o.g.authOn);
  }

  lemma KeepsList(c: Conn, t: Table, g: Globals)
    ensures var o := FinishSpawn(c, t, g); o.Out? && o.c.resolution == c.resolution
  {
  }

  lemma KeptConn(o: Out, t: Table, id: nat)
    requires Kept(o, t, id) && o.c.live
    ensures ConnInv(o.c, o.t, id, o.g.authOn)
  {
    hide ConnInv, Frame;
  }

  lemma ResolvWaits(c: Conn, t: Table, id: nat, authOn: bool)
    requires ConnInv(c, t, id, authOn) && c.phase == RequestResolv
    ensures InterestOf(c.clientFd, t) == NOOP
  {
    hide H.Parsed, A.Parsed, R.Parsed, Common, Registered, Aimed, Admitted;
  }

  /** The thread stores what it found where the block handler looks, and then queues the connection's own descriptor. */
  lemma ThreadAnswers(w: World, k: nat, found: seq<Addr>)
    requires Reachable(w) && Enabled(w, Lookup(k, found))
    ensures var r := Next(w, Lookup(k, found));
            && r.Ok? && k < |w.conns| && r.w.conns == w.conns[k := Answered(w.conns[k], found)]
            && r.w.conns[k].resolution == found && r.w.conns[k].live && InFlight(r.w.conns[k])
            && (w.main.Idle? && w.conns[k].phase == RequestResolv ==>
                  var n := Next(r.w, Notify(k));
                  Enabled(r.w, Notify(k)) && n.Ok? && n.w.jobs == [w.conns[k].clientFd] + w.jobs)
  {
    hide Reachable, ConnInv, Inv;
    ReachableInv(w);
    NeverAborts(w, Lookup(k, found));
    StartedIsInFlight(w, k);
  }

  lemma StartedIsInFlight(w: World, k: nat)
    requires Inv(w) && k < |w.workers| && w.workers[k] == Started
    ensures k < |w.conns| == |w.workers| && w.conns[k].live && InFlight(w.conns[k])
  {
    hide ConnInv, ConnsOk, TableOk, ObjectsOk, GatesOk, DeadOk, StatsOk, QueueOk, DrainOk;
    assert WorkerOk(w.conns[k], w.workers[k], Pending(w.main, w.jobs), w.main == Spawning(k));
  }

  lemma DrainMay(w: World, io: Io)
    requires w.main.Draining? && w.main.rest != []
    ensures Enabled(w, DrainNext(io))
  {
  }

  /** The block handler of the job at the head: a reply without an address, an attempt at the first one with any. */
  lemma NameIsAnswered(w: World, io: Io)
    requires Reachable(w) && w.main.Draining? && w.main.rest != []
    ensures var k := Attached(w.t, w.main.rest[0]);
            var r := Next(w, DrainNext(io));
            && 0 <= k < |w.conns| && r.Ok? && k < |r.w.conns| && r.w.main == Draining(w.main.rest[1..])
            && if w.conns[k].resolution == [] then Answers(r.w, k, 4)
               else Outcome(w, k, r.w, io.connect, w.conns[k].resolution[0])
  {
    hide Reachable, Inv, ConnInv, OnBlock, Kept, Tallied, Attempted, Outcome, Next, Enabled, TenBytes, InterestOf;
    ReachableInv(w);
    DispatchedInResolv(w);
    assert Enabled(w, DrainNext(io)) by { DrainMay(w, io); }
    NeverAborts(w, DrainNext(io));
    var k := Attached(w.t, w.main.rest[0]);
    ReachableConn(w, k);
    BlockGoes(w.conns[k], w.t, w.g, k + 1, io);
    DispatchRuns(w, io);
    var o := OnBlock(w.conns[k], w.t, w.g, k + 1, io);
    HeadJob(w);
    OnBlockKeeps(w.conns[k], w.t, w.g, k + 1, io);
    Dispatches(w.conns[k], w.t, w.g, k + 1, o);
    if w.conns[k].resolution != [] {
      AttemptedIs(w, k, Dispatched(w.conns[k]), o, Next(w, DrainNext(io)).w, io.connect, w.conns[k].resolution[0]);
    }
  }

  // ---------------------------------------------------------------- the origin's answer

  lemma RepliesIs(k: nat, c: Conn, o: Out, w': World, status: byte)
    requires Replies(c, o, k + 1, status) && k < |w'.conns| && o.Out? && w'.conns[k] == o.c && w'.t == o.t
    ensures Answers(w', k, status)
  {
    hide TenBytes, InterestOf;
  }

  lemma ConnectsIs(k: nat, c: Conn, o: Out, w': World, fd: int)
    requires Connects(c, o, fd) && k < |w'.conns| && o.Out? && w'.conns[k] == o.c && w'.t == o.t
    ensures Attempts(w', k, fd, c.target)
  {
    hide InterestOf;
  }

  lemma BecameIs(w: World, k: nat, o: Out, r: Result)
    requires Became(w, k, o, r)
    ensures r.Ok? && o.Out? && k < |w.conns| && k < |r.w.conns| && r.w.conns[k] == o.c && r.w.t == o.t
  {
    hide Reachable, ConnInv;
  }

  lemma RetryMay(w: World, k: nat, fd: int, io: Io)
    requires MayWrite(w, k, fd, io) && w.conns[k].phase == RequestConnecting
    ensures WillRetry(w.conns[k], io) ==> RetryReaches(w.conns[k], w.t, io)
  {
    hide Reachable, RetryReaches;
  }

  lemma OriginGoes(c: Conn, t: Table, g: Globals, id: nat, io: Io)
    requires ConnInv(c, t, id, g.authOn) && c.phase == RequestConnecting
    ensures c.client.RequestSt?
    ensures var o := OnWrite(c, t, g, id, c.originFd, io);
            if WillRetry(c, io) then
              RetryReaches(c, t, io) ==>
                && Connects(c.(tried := c.tried + 1, target := c.resolution[c.tried + 1]), o, io.connect.fd)
                && o.c.tried == c.tried + 1
            else Replies(c, o, id, if io.sockopt.OptFails? then 1 else FailureByte(io.sockopt.e))
  {
    hide ConnInv, OnWrite, ConnectingH, Settle, Jump, RetryReaches, WillRetry, Replies;
    WritesAre(c, t, g, id, io);
    ConnectingGoes(c, t, g, id, io);
  }

  /** The origin is there, or the next address is tried, or the client is told why not. */
  lemma OriginAnswers(w: World, k: nat, io: Io)
    requires k < |w.conns| && MayWrite(w, k, w.conns[k].originFd, io) && w.conns[k].phase == RequestConnecting
    ensures var c := w.conns[k];
            var r := Next(w, Writable(c.originFd, io));
            && r.Ok? && k < |r.w.conns| && c.client.RequestSt?
            && var failed := io.sockopt.SoError? && io.sockopt.e != R.NoError;
               if failed && c.client.req.atyp == R.DOMAIN && c.tried + 1 < |c.resolution| then
                 && r.w.conns[k].tried == c.tried + 1 && Attempts(r.w, k, io.connect.fd, c.resolution[c.tried + 1])
               else Answers(r.w, k, if io.sockopt.OptFails? then 1 else FailureByte(io.sockopt.e))
  {
    var c := w.conns[k];
    hide Reachable, ConnInv, OnWrite, Next, RetryReaches, MayWrite, Became, Replies, Connects, Answers, Attempts;
    hide FailureByte;
    WriteHappens(w, k, c.originFd, io);
    var o, r := OnWrite(c, w.t, w.g, k + 1, c.originFd, io), Next(w, Writable(c.originFd, io));
    BecameIs(w, k, o, r);
    RetryMay(w, k, c.originFd, io);
    OriginGoes(c, w.t, w.g, k + 1, io);
    if !WillRetry(c, io) {
      RepliesIs(k, c, o, r.w, if io.sockopt.OptFails? then 1 else FailureByte(io.sockopt.e));
    } else {
      ConnectsIs(k, c.(tried := c.tried + 1, target := c.resolution[c.tried + 1]), o, r.w, io.connect.fd);
    }
  }

  // ---------------------------------------------------------------- where it connects to

  /** A connection that has an origin descriptor. */
  predicate HasOrigin(c: Conn) {
    c.phase == RequestConnecting || c.phase == Copy || (c.phase == RequestWrite && c.originFd != -1)
  }

  lemma OriginIsAimed(c: Conn, t: Table, id: nat, authOn: bool)
    requires ConnInv(c, t, id, authOn) && HasOrigin(c)
    ensures Aimed(c)
  {
    hide H.Parsed, A.Parsed, R.Parsed, TargetOf, Owned, Common, Admitted;
  }

  /**
   * Whoever has an origin aims at the address and the port that the bytes of the request name, or, if they
   * name a domain, at one of the addresses it resolved to.
   */
  lemma TargetAsRequested(w: World, k: nat, cmd: byte, rsv: byte, dst: R.Dest, port: seq<byte>)
    requires Reachable(w) && k < |w.conns| && w.conns[k].live && HasOrigin(w.conns[k])
    requires dst.Valid() && |port| == 2 && w.conns[k].log.request == R.Encode(cmd, rsv, dst, port)
    ensures if dst.Name? then w.conns[k].target in w.conns[k].log.resolved
            else w.conns[k].target == Addr(dst.Type(), dst.ip, port)
  {
    hide Reachable, ConnInv, R.Encode, R.Parsed, TargetOf;
    ReachableConn(w, k);
    OriginIsAimed(w.conns[k], w.t, k + 1, w.g.authOn);
    TargetIs(cmd, rsv, dst, port, []);
    assert R.Encode(cmd, rsv, dst, port) + [] == R.Encode(cmd, rsv, dst, port);
  }
}
