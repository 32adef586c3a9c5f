/** Runs that show the exceptional cases of the theorems to be reachable, step by step. */
module Witnesses {
  import opened Bytes
  import opened Buffers
  import opened Selector
  import opened Session
  import opened SessionInvariant
  import opened SessionEngine
  import opened World
  import opened WorldInvariant
  import opened WorldProofs
  import opened Guarantees
  import opened Stalls
  import opened Authentication
  import opened LostRetry
  import opened Delivery
  import Accounts
  import H = Hello
  import A = Auth
  import R = Request

  // ---------------------------------------------------------------- one connection

  /** A reachable world with one connection, at rest. */
  ghost predicate One(w: World, c: Conn, t: Table, g: Globals) {
    Reachable(w) && w.main.Idle? && w.conns == [c] && w.workers == [NoWorker] && w.t == t && w.g == g && c.live
      && w.jobs == []
  }

  function Receiving(data: seq<byte>, connect: ConnectIo): Io {
    Io(data, -1, connect, OptFails, true)
  }

  function Sending(n: int, opt: SockOpt): Io {
    Io([], n, NoSocket, opt, true)
  }

  lemma StartReachable(users: seq<User>)
    ensures Reachable(Start(users, map[]))
  {
    assert RunsTo(users, map[], [], Start(users, map[]));
  }

  /** accept on a descriptor that is not in use, with memory to spare. */
  lemma Accepts(w: World, fd: int, obj: nat)
    requires Reachable(w) && w.main.Idle? && w.pool == [] && !InvalidFd(fd) && fd !in w.t && Unused(w.conns, [], obj)
    ensures var r := Next(w, Accept(fd, obj, true));
            && r.Ok? && Reachable(r.w)
            && r.w == w.(conns := w.conns + [NewConn(obj, fd)], workers := w.workers + [NoWorker],
                         t := w.t[fd := Item(READ, |w.conns| + 1)])
  {
    NeverAborts(w, Accept(fd, obj, true));
    hide Reachable;
  }

  lemma Opens(users: seq<User>) returns (w: World)
    ensures One(w, NewConn(0, 5), map[5 := Item(READ, 1)], Globals(true, users, 0, 0, 0)) && w.pool == []
  {
    StartReachable(users);
    var w0 := Start(users, map[]);
    Accepts(w0, 5, 0);
    w := Next(w0, Accept(5, 0, true)).w;
    hide Reachable, Next;
  }

  lemma Reads(w: World, c: Conn, t: Table, g: Globals, fd: int, io: Io, o: Out) returns (w': World)
    requires One(w, c, t, g) && fd in t && t[fd].data == 1 && t[fd].interest.read
    requires o == OnRead(c, t, g, 1, fd, io) && o.Out? && o.c.live && !o.c.spawned
    ensures One(w', o.c, o.t, o.g) && w'.pool == w.pool
  {
    hide OnRead, Reachable;
    NeverAborts(w, Readable(fd, io));
    w' := Next(w, Readable(fd, io)).w;
  }

  lemma Writes(w: World, c: Conn, t: Table, g: Globals, fd: int, io: Io, o: Out) returns (w': World)
    requires One(w, c, t, g) && fd in t && t[fd].data == 1 && t[fd].interest.write && !WillRetry(c, io)
    requires o == OnWrite(c, t, g, 1, fd, io) && o.Out? && o.c.live && !o.c.spawned
    ensures One(w', o.c, o.t, o.g) && w'.pool == w.pool
  {
    hide OnWrite, Reachable, WillRetry;
    NeverAborts(w, Writable(fd, io));
    w' := Next(w, Writable(fd, io)).w;
  }

  // ---------------------------------------------------------------- the handlers on what is sent here

  ghost predicate Talking(c: Conn, rb: Queue, wb: Queue) {
    && c.live && !c.spawned && c.clientFd == 5 && c.references == 1 && c.originFd == -1
    && c.rb == rb && c.wb == wb && c.resolution == [] && c.log.auth == c.log.request == [] && !c.log.touched
    && c.log.toOrigin == []
  }

  function Left(n: nat, rest: seq<byte>): Queue {
    if rest == [] then Empty(RAW_BUFFER_SIZE) else Queue(RAW_BUFFER_SIZE, n, rest)
  }

  lemma OfferParsed(authOn: bool, m: byte, rest: seq<byte>)
    requires m == H.Accepted(authOn)
    ensures H.Parsed(authOn, H.INIT, [5, 1, m] + rest).st == H.Negotiation(H.Done, 0, m)
    ensures H.Parsed(authOn, H.INIT, [5, 1, m] + rest).eaten == 3
  {
    hide H.Parsed;
    assert H.Encode([m]) + rest == [5, 1, m] + rest;
    H.HelloRoundTrip(authOn, [m], rest);
  }

  lemma OfferEaten(c: Conn, authOn: bool, m: byte, rest: seq<byte>)
    requires c.client == HelloSt(H.INIT) && c.rb == Empty(RAW_BUFFER_SIZE) && c.log.hello == c.log.fromClient == []
    requires m == H.Accepted(authOn) && c.log.authAtHello == authOn
    ensures AfterHello(c, authOn, [5, 1, m] + rest) ==
            c.(rb := Left(3, rest), client := HelloSt(H.Negotiation(H.Done, 0, m)),
               log := c.log.(fromClient := [5, 1, m] + rest, hello := [5, 1, m], early := 3))
  {
    hide H.Parsed;
    OfferParsed(authOn, m, rest);
    var data := [5, 1, m] + rest;
    assert data[3..] == rest && data[..3] == [5, 1, m];
    assert c.rb.Put(data).bytes == data && [] + data == data && [] + [5, 1, m] == [5, 1, m];
  }

  /** The offer of one method. */
  lemma Offers(authOn: bool, users: seq<User>, m: byte, rest: seq<byte>) returns (o: Out)
    requires 3 + |rest| <= RAW_BUFFER_SIZE && authOn == (users != []) && m == H.Accepted(authOn)
    ensures o == OnRead(NewConn(0, 5), map[5 := Item(READ, 1)], Globals(true, users, 0, 0, 0), 1, 5,
                        Receiving([5, 1, m] + rest, NoSocket))
    ensures o.Out? && o.g == Globals(authOn, users, 0, 0, 0) && o.t == map[5 := Item(WRITE, 1)]
    ensures Talking(o.c, Left(3, rest), Queue(RAW_BUFFER_SIZE, 0, [5, m])) && o.c.phase == HelloWrite
            && o.c.client.HelloSt?
    ensures o.c.log.hello == [5, 1, m] && o.c.log.fromClient == [5, 1, m] + rest
    ensures o.c.log.chosen == m && o.c.log.authAtHello == authOn && o.c.log.early == 3 && o.c.obj == 0
    ensures o.c.log.toClient == []
  {
    var io := Receiving([5, 1, m] + rest, NoSocket);
    var t, g, h := map[5 := Item(READ, 1)], Globals(true, users, 0, 0, 0), Globals(authOn, users, 0, 0, 0);
    var c := HandleFirst(NewConn(0, 5), g);
    assert FirstGlobals(NewConn(0, 5), g) == h;
    OfferEaten(c, authOn, m, rest);
    OfferHandled(c, t, h, io);
    hide AfterHello, Left, HelloReadH, HandleFirst, FirstGlobals;
    o := OnRead(NewConn(0, 5), t, g, 1, 5, io);
  }

  lemma OfferHandled(c: Conn, t: Table, g: Globals, io: Io)
    requires c.client.HelloSt? && c.rb == c.wb == Empty(RAW_BUFFER_SIZE) && t == map[5 := Item(READ, 1)]
    requires 0 < |io.recv| <= RAW_BUFFER_SIZE
    requires var c1 := AfterHello(c, g.authOn, io.recv);
             c1.client.HelloSt? && c1.client.hello.state == H.Done && c1.wb == c.wb
    ensures HelloReadH(c, t, g, 5, io) ==
            Out(Greeting(AfterHello(c, g.authOn, io.recv)), map[5 := Item(WRITE, 1)], g, HelloWrite)
  {
    assert t[5 := Item(WRITE, 1)] == map[5 := Item(WRITE, 1)];
    hide AfterHello;
  }

  /** The method is sent, with the flag down by now. */
  lemma Flushes(c: Conn, t: Table, g: Globals, rb: Queue, m: byte) returns (o: Out)
    requires Talking(c, rb, Queue(RAW_BUFFER_SIZE, 0, [5, m])) && c.phase == HelloWrite && c.client.HelloSt?
             && !g.authOn
    requires 5 in t && t[5] == Item(WRITE, 1)
    ensures o == OnWrite(c, t, g, 1, 5, Sending(2, OptFails)) && o.Out? && o.g == g
    ensures o.t == t[5 := Item(READ, 1)] && Talking(o.c, rb, Empty(RAW_BUFFER_SIZE))
    ensures o.c.phase == RequestRead && o.c.client == RequestSt(R.INIT, R.GENERAL_FAILURE) && o.c.log.gate == AuthOff
    ensures o.c.log == c.log.(gate := AuthOff, authAtFlush := false, toClient := c.log.toClient + [5, m])
  {
    o := OnWrite(c, t, g, 1, 5, Sending(2, OptFails));
    assert Flushed(c, 2).log.toClient == c.log.toClient + [5, m];
  }

  const TARGET: seq<byte> := [10, 0, 0, 1]
  const PORT: seq<byte> := [0, 80]

  ghost function Wish(): seq<byte> {
    R.Encode(R.CONNECT, 0, R.V4(TARGET), PORT)
  }

  lemma WishEaten(c: Conn, more: seq<byte>)
    requires c.client == RequestSt(R.INIT, R.GENERAL_FAILURE) && c.rb == Empty(RAW_BUFFER_SIZE) && c.log.request == []
    ensures var d := AfterRequest(c, Wish() + more);
            && d.client.RequestSt? && d.client.req.state == R.Done && d.client.req.cmd == R.CONNECT
            && d.client.req.atyp == R.IPV4
            && d == c.(rb := Left(10, more), client := d.client,
                       log := c.log.(fromClient := c.log.fromClient + (Wish() + more), request := Wish()))
  {
    var data := Wish() + more;
    R.RequestRoundTrip(R.CONNECT, 0, R.V4(TARGET), PORT, more);
    hide R.Parsed, R.Next;
    assert |Wish()| == 10 && data[10..] == more && data[..10] == Wish();
    assert c.rb.Put(data).bytes == data && [] + Wish() == Wish();
  }

  /** A request for an address, with bytes behind it; the connection to the origin is in progress on 6. */
  lemma Requests(c: Conn, t: Table, g: Globals, more: seq<byte>) returns (o: Out)
    requires Talking(c, Empty(RAW_BUFFER_SIZE), Empty(RAW_BUFFER_SIZE)) && 10 + |more| <= RAW_BUFFER_SIZE
    requires c.phase == RequestRead && c.client == RequestSt(R.INIT, R.GENERAL_FAILURE)
    requires t == map[5 := Item(READ, 1)]
    ensures o == OnRead(c, t, g, 1, 5, Receiving(Wish() + more, InProgress(6))) && o.Out? && o.g == g
    ensures o.t == map[5 := Item(NOOP, 1), 6 := Item(WRITE, 1)]
    ensures o.c.phase == RequestConnecting && o.c.live && !o.c.spawned && o.c.clientFd == 5 && o.c.originFd == 6
    ensures o.c.client.RequestSt? && o.c.client.req.atyp == R.IPV4 && o.c.origin.Connecting?
    ensures o.c.rb == Left(10, more) && o.c.wb == Empty(RAW_BUFFER_SIZE)
    ensures !o.c.log.touched && o.c.log.hello == c.log.hello && o.c.log.auth == [] && |o.c.log.request| == 10
    ensures o.c.log.fromClient == c.log.fromClient + (Wish() + more)
  {
    var data := Wish() + more;
    var io := Receiving(data, InProgress(6));
    WishEaten(c, more);
    WishLength();
    assert Received(c.rb, data) == data;
    WishTried(AfterRequest(c, data), t, g, io);
    hide AfterRequest, RequestProcess, Received, Wish;
    o := OnRead(c, t, g, 1, 5, io);
  }

  lemma WishTried(c: Conn, t: Table, g: Globals, io: Io)
    requires c.phase == RequestRead && c.clientFd == 5 && c.live && c.references == 1 && t == map[5 := Item(READ, 1)]
    requires c.client.RequestSt? && c.client.req.cmd == R.CONNECT && c.client.req.atyp == R.IPV4
             && io.connect == InProgress(6)
    ensures RequestProcess(c, t, g, 1, io) ==
            Out(c.(target := TargetOf(c.client.req), originFd := 6, references := 2),
                map[5 := Item(NOOP, 1), 6 := Item(WRITE, 1)], g, RequestConnecting)
  {
    assert t[5 := Item(NOOP, 1)] == map[5 := Item(NOOP, 1)];
    hide TargetOf, ErrorWrite;
  }

  lemma Connects(c: Conn, t: Table, g: Globals) returns (o: Out)
    requires c.phase == RequestConnecting && c.live && !c.spawned && c.clientFd == 5 && c.originFd == 6
    requires c.client.RequestSt? && c.client.req.atyp == R.IPV4 && c.origin.Connecting?
             && c.wb == Empty(RAW_BUFFER_SIZE)
    requires t == map[5 := Item(NOOP, 1), 6 := Item(WRITE, 1)]
    ensures !WillRetry(c, Sending(0, SoError(R.NoError)))
    ensures o == OnWrite(c, t, g, 1, 6, Sending(0, SoError(R.NoError))) && o.Out? && o.g == g
    ensures o.t == map[5 := Item(WRITE, 1), 6 := Item(NOOP, 1)]
    ensures o.c.phase == RequestWrite && o.c.live && !o.c.spawned && o.c.clientFd == 5 && o.c.originFd == 6
    ensures o.c.client.RequestSt? && o.c.client.status == R.SUCCEEDED && o.c.rb == c.rb
    ensures o.c.wb == Queue(RAW_BUFFER_SIZE, 0, R.Reply(R.SUCCEEDED))
    ensures o.c.log == c.log.(replies := o.c.log.replies)
  {
    o := OnWrite(c, t, g, 1, 6, Sending(0, SoError(R.NoError)));
  }

  /** A relay as it is entered. */
  ghost predicate Entered(c: Conn, rb: Queue) {
    && c.phase == Copy && c.live && !c.spawned && c.clientFd == 5 && c.originFd == 6 && c.log.copied
    && c.client == ClientCopy(BOTH) && c.origin == OriginCopy(BOTH) && c.rb == rb && c.wb == Empty(RAW_BUFFER_SIZE)
  }

  lemma Replies(c: Conn, t: Table, g: Globals) returns (o: Out)
    requires c.phase == RequestWrite && c.live && !c.spawned && c.clientFd == 5 && c.originFd == 6
    requires c.client.RequestSt? && c.client.status == R.SUCCEEDED
    requires c.wb == Queue(RAW_BUFFER_SIZE, 0, R.Reply(R.SUCCEEDED))
    requires t == map[5 := Item(WRITE, 1), 6 := Item(NOOP, 1)]
    ensures o == OnWrite(c, t, g, 1, 5, Sending(10, OptFails)) && o.Out? && o.c.phase == Copy && o.c.live
            && !o.c.spawned
    ensures o.c.rb == c.rb && !o.c.log.touched == !c.log.touched && o.c.log.fromClient == c.log.fromClient
    ensures o.c.log.hello == c.log.hello && o.c.log.auth == c.log.auth && o.c.log.request == c.log.request
    ensures Entered(o.c, c.rb) && o.t == map[5 := Item(READ, 1), 6 := Item(READ, 1)]
  {
    o := OnWrite(c, t, g, 1, 5, Sending(10, OptFails));
  }

  // ---------------------------------------------------------------- stalls

  /** A client without authentication whose offer comes with `rest` behind it. */
  lemma Greeted(rest: seq<byte>) returns (w: World, c: Conn)
    requires 3 + |rest| <= RAW_BUFFER_SIZE
    ensures One(w, c, map[5 := Item(READ, 1)], Globals(false, [], 0, 0, 0))
    ensures Talking(c, Left(3, rest), Empty(RAW_BUFFER_SIZE)) && c.phase == RequestRead
    ensures c.client == RequestSt(R.INIT, R.GENERAL_FAILURE) && c.log.hello == [5, 1, 0]
    ensures c.log.fromClient == [5, 1, 0] + rest && c.log.toClient == [5, 0]
  {
    hide One, OnRead, OnWrite;
    var w0 := Opens([]);
    var o1 := Offers(false, [], 0, rest);
    var w1 := Reads(w0, NewConn(0, 5), map[5 := Item(READ, 1)], Globals(true, [], 0, 0, 0), 5,
                    Receiving([5, 1, 0] + rest, NoSocket), o1);
    var o2 := Flushes(o1.c, o1.t, o1.g, Left(3, rest), 0);
    w := Writes(w1, o1.c, o1.t, o1.g, 5, Sending(2, OptFails), o2);
    c := o2.c;
    assert o2.t == map[5 := Item(READ, 1)];
  }

  /** A whole request sent right behind the offer is there, unread, and nothing but another byte will move it. */
  lemma HandshakeStalls()
    ensures exists w :: Reachable(w) && |w.conns| == 1
              && var c := w.conns[0];
                 c.live && c.phase == RequestRead && Reading(c) && c.rb.bytes == Wish() && c.log.request == []
  {
    assert |Wish()| == 10;
    var w, c := Greeted(Wish());
    assert w.conns[0] == c;
    hide Reachable, Wish;
  }

  /** The relay as it is entered, with `more` pipelined behind the request. */
  lemma Relaying(more: seq<byte>) returns (w: World)
    requires 10 + |more| <= RAW_BUFFER_SIZE
    ensures Reachable(w) && |w.conns| == 1 && w.conns[0].live && w.conns[0].phase == Copy
    ensures w.conns[0].rb == Left(10, more) && !w.conns[0].log.touched
    ensures |w.conns[0].log.fromClient| == Eaten(w.conns[0].log) + |more|
    ensures One(w, w.conns[0], map[5 := Item(READ, 1), 6 := Item(READ, 1)], w.g) && Entered(w.conns[0], Left(10, more))
  {
    hide OnRead, OnWrite, Reachable, R.Reply, Wish, Entered;
    var w2, c2 := Greeted([]);
    var t2, g := map[5 := Item(READ, 1)], Globals(false, [], 0, 0, 0);
    var o3 := Requests(c2, t2, g, more);
    var w3 := Reads(w2, c2, t2, g, 5, Receiving(Wish() + more, InProgress(6)), o3);
    var o4 := Connects(o3.c, o3.t, g);
    var w4 := Writes(w3, o3.c, o3.t, g, 6, Sending(0, SoError(R.NoError)), o4);
    var o5 := Replies(o4.c, o4.t, g);
    w := Writes(w4, o4.c, o4.t, g, 5, Sending(10, OptFails), o5);
    assert w.conns[0] == o5.c;
    assert |Wish()| == 10 by { WishLength(); }
  }

  lemma WishLength()
    ensures |Wish()| == 10
  {
  }

  /** One pipelined byte, and the relay stalls; none, and it does not. */
  lemma RelayStalls()
    ensures exists w :: Reachable(w) && |w.conns| == 1 && w.conns[0].live && w.conns[0].phase == Copy
              && !NoStall(w.conns[0], w.t)
    ensures exists w :: Reachable(w) && |w.conns| == 1 && w.conns[0].live && w.conns[0].phase == Copy
              && NoStall(w.conns[0], w.t)
  {
    hide Reachable, NoStall, Eaten;
    var w1 := Relaying([7]);
    NoStallIff(w1, 0);
    var w0 := Relaying([]);
    NoStallIff(w0, 0);
  }

  /** Enough of them, and the client is watched with no room for what it sends. */
  lemma RelayFills()
    ensures exists w :: Reachable(w) && |w.conns| == 1 && w.conns[0].live && w.conns[0].phase == Copy
              && InterestOf(w.conns[0].clientFd, w.t).read && w.conns[0].rb.Space() == 0
  {
    hide Reachable, Eaten, Pipelined, InterestOf;
    var w := Relaying(seq(RAW_BUFFER_SIZE - 10, i => 7));
    NoRoomIff(w, 0);
    PipelinedIs(w, 0);
  }

  // ---------------------------------------------------------------- bytes that are never delivered

  /** The client sends a byte. */
  lemma Sends(c: Conn, t: Table, g: Globals) returns (o: Out)
    requires Entered(c, Empty(RAW_BUFFER_SIZE)) && t == map[5 := Item(READ, 1), 6 := Item(READ, 1)]
    ensures o == OnRead(c, t, g, 1, 5, Receiving([7], NoSocket)) && o.Out? && o.c.live && !o.c.spawned
    ensures o.t == map[5 := Item(READ, 1), 6 := Item(BOTH, 1)] && o.g == g
    ensures IsOpen(o.c, Up) && Buffered(o.c, Up) == [7] && o.c.clientFd == 5
  {
    o := OnRead(c, t, g, 1, 5, Receiving([7], NoSocket));
    assert [] + [7] == [7];
  }

  /** A client sends a byte and then its end, before the origin is ready: `DeliveredIffEmpty` says the byte is lost. */
  lemma RelayTruncates()
    ensures exists w, s :: Reachable(w) && |w.conns| == 1 && Enabled(w, s) && Next(w, s).Ok?
              && IsOpen(w.conns[0], Up) && Closing(w.conns[0], s, Up) && Buffered(w.conns[0], Up) != []
  {
    hide OnRead, Reachable, Entered;
    var w0 := Relaying([]);
    var c, t := w0.conns[0], map[5 := Item(READ, 1), 6 := Item(READ, 1)];
    var o := Sends(c, t, w0.g);
    var w := Reads(w0, c, t, w0.g, 5, Receiving([7], NoSocket), o);
    var s := Readable(5, Receiving([], NoSocket));
    assert w.conns[0] == o.c && Received(o.c.rb, []) == [];
    NeverAborts(w, s);
  }

  // ---------------------------------------------------------------- passwords announced, not asked for

  const ALICE := Accounts.User([97], [98])

  /** The offer is complete and 02 chosen; before it is sent the only user goes, and another client says hello. */
  lemma MethodAnnouncedInVain()
    ensures exists w :: Reachable(w) && |w.conns| == 2
              && var c := w.conns[0];
                 c.live && Told(c) && c.log.chosen == H.USERNAME_PASSWORD && !AsksFor(c) && c.log.early == |c.log.hello|
                 && c.log.gate == AuthOff
  {
    hide OnRead, OnWrite, Reachable;
    var w0 := Opens([ALICE]);
    var o1 := Offers(true, [ALICE], 2, []);
    assert [5, 1, 2] + [] == [5, 1, 2];
    var g1 := Globals(true, [ALICE], 0, 0, 0);
    var w1 := Reads(w0, NewConn(0, 5), map[5 := Item(READ, 1)], g1, 5, Receiving([5, 1, 2] + [], NoSocket), o1);
    var w2 := Removes(w1);
    Accepts(w2, 6, 1);
    var w3 := Next(w2, Accept(6, 1, true)).w;
    var w4 := SecondHello(w3, o1.c);
    var o5 := Flushes(o1.c, w4.t, w4.g, Left(3, []), 2);
    LastFlush(w4, o1.c, o5);
    var w5 := Next(w4, Writable(5, Sending(2, OptFails))).w;
    assert w5.conns[0] == o5.c;
  }

  lemma Removes(w: World) returns (w': World)
    requires Reachable(w) && w.main.Idle? && w.g.users == [ALICE]
    ensures Reachable(w') && w' == w.(g := w.g.(users := []))
  {
    NeverAborts(w, Edit(Accounts.Remove([97])));
    w' := Next(w, Edit(Accounts.Remove([97]))).w;
    assert Accounts.IndexOf([ALICE], [97]) == 0;
    assert Accounts.Without([ALICE], [97]) == [];
    hide Reachable;
  }

  /** The first byte of a second client, with no users left, turns authentication off. */
  lemma SecondHello(w: World, c: Conn) returns (w': World)
    requires Reachable(w) && w.main.Idle? && w.conns == [c, NewConn(1, 6)] && |w.workers| == 2
    requires w.t == map[5 := Item(WRITE, 1), 6 := Item(READ, 2)] && w.g.users == []
    ensures Reachable(w') && w'.main.Idle? && |w'.conns| == |w'.workers| == 2 && w'.conns[0] == c
    ensures w'.t == w.t && !w'.g.authOn
  {
    var io := Receiving([5], NoSocket);
    NeverAborts(w, Readable(6, io));
    w' := Next(w, Readable(6, io)).w;
    OneByte(w.t, w.g);
    hide Reachable, OnRead;
  }

  lemma OneByte(t: Table, g: Globals)
    requires g.users == []
    ensures var o := OnRead(NewConn(1, 6), t, g, 2, 6, Receiving([5], NoSocket));
            o.Out? && o.t == t && !o.g.authOn && !o.c.spawned && o.c.live
  {
    H.ParsedStep(false, H.INIT, [5]);
    assert [5][1..] == [];
  }

  lemma LastFlush(w: World, c: Conn, o: Out)
    requires Reachable(w) && w.main.Idle? && |w.conns| == |w.workers| == 2 && w.conns[0] == c && c.live
    requires 5 in w.t && w.t[5] == Item(WRITE, 1) && c.phase == HelloWrite
    requires o == OnWrite(c, w.t, w.g, 1, 5, Sending(2, OptFails)) && o.Out? && !o.c.spawned && o.c.live
    ensures var r := Next(w, Writable(5, Sending(2, OptFails)));
            r.Ok? && Reachable(r.w) && |r.w.conns| == 2 && r.w.conns[0] == o.c
  {
    hide OnWrite, Reachable, WillRetry;
    NeverAborts(w, Writable(5, Sending(2, OptFails)));
  }

  // ---------------------------------------------------------------- a retry that is lost

  const FIRST := Addr(R.IPV4, TARGET, PORT)
  const SECOND := Addr(R.IPV4, [10, 0, 0, 2], PORT)

  ghost function Named(): seq<byte> {
    R.Encode(R.CONNECT, 0, R.Name([104]), PORT)
  }

  lemma NamedEaten(c: Conn)
    requires c.client == RequestSt(R.INIT, R.GENERAL_FAILURE) && c.rb == Empty(RAW_BUFFER_SIZE) && c.log.request == []
    ensures var d := AfterRequest(c, Named());
            && d.client.RequestSt? && d.client.req.state == R.Done && d.client.req.cmd == R.CONNECT
            && d.client.req.atyp == R.DOMAIN && d.client.status == R.GENERAL_FAILURE
            && d == c.(rb := d.rb, client := d.client, log := d.log) && d.log.spawns == c.log.spawns
  {
    R.RequestRoundTrip(R.CONNECT, 0, R.Name([104]), PORT, []);
    hide R.Parsed, R.Next;
    assert Named() + [] == Named() && |Named()| == 8;
    assert c.rb.Put(Named()).bytes == Named();
  }

  /** What matters of a connection that resolves a name. */
  ghost predicate Resolving(c: Conn, phase: Phase, spawned: bool, found: seq<Addr>) {
    && c.live && c.phase == phase && c.spawned == spawned && c.clientFd == 5 && c.originFd == -1 && c.references == 1
    && c.client.RequestSt? && c.client.req.atyp == R.DOMAIN && c.resolution == found
  }

  lemma Asks(c: Conn, t: Table, g: Globals) returns (o: Out)
    requires Talking(c, Empty(RAW_BUFFER_SIZE), Empty(RAW_BUFFER_SIZE))
    requires c.phase == RequestRead && c.client == RequestSt(R.INIT, R.GENERAL_FAILURE)
    ensures o == OnRead(c, t, g, 1, 5, Receiving(Named(), NoSocket)) && o.Out? && o.t == t && o.g == g
    ensures Resolving(o.c, RequestRead, true, [])
  {
    NamedEaten(c);
    NamedLength();
    var io := Receiving(Named(), NoSocket);
    assert Received(c.rb, Named()) == Named();
    hide AfterRequest, Received, Named, ErrorWrite, RequestConnect;
    o := OnRead(c, t, g, 1, 5, io);
  }

  lemma NamedLength()
    ensures |Named()| == 8
  {
  }

  /** The thread is created, resolves the name and notifies; the main thread takes the job. */
  lemma Resolves(w: World, found: seq<Addr>) returns (w': World)
    requires Reachable(w) && w.main == Spawning(0) && |w.conns| == |w.workers| == 1 && w.workers[0] == Started
    requires Resolving(w.conns[0], RequestRead, true, []) && w.t == map[5 := Item(READ, 1)] && w.jobs == []
    ensures Reachable(w') && w'.main == Draining([5]) && |w'.conns| == |w'.workers| == 1
    ensures Resolving(w'.conns[0], RequestResolv, false, found) && w'.t == map[5 := Item(NOOP, 1)]
  {
    hide Reachable, Release;
    NeverAborts(w, Proceed);
    var w1 := Next(w, Proceed).w;
    assert w1.t == map[5 := Item(NOOP, 1)] && Resolving(w1.conns[0], RequestResolv, false, []);
    w' := Notified(w1, found);
  }

  lemma Notified(w: World, found: seq<Addr>) returns (w': World)
    requires Reachable(w) && w.main.Idle? && |w.conns| == |w.workers| == 1 && w.workers[0] == Started
    requires Resolving(w.conns[0], RequestResolv, false, []) && w.t == map[5 := Item(NOOP, 1)] && w.jobs == []
    ensures Reachable(w') && w'.main == Draining([5]) && |w'.conns| == |w'.workers| == 1
    ensures Resolving(w'.conns[0], RequestResolv, false, found) && w'.t == map[5 := Item(NOOP, 1)]
  {
    hide Reachable, Release;
    NeverAborts(w, Lookup(0, found));
    var w1 := Next(w, Lookup(0, found)).w;
    NeverAborts(w1, Notify(0));
    var w2 := Next(w1, Notify(0)).w;
    NeverAborts(w2, DrainBegin);
    w' := Next(w2, DrainBegin).w;
  }

  /** The block handler tries the first address, in progress on 6. */
  lemma TriesFirst(w: World) returns (w': World)
    requires Reachable(w) && w.main == Draining([5]) && |w.conns| == |w.workers| == 1
    requires Resolving(w.conns[0], RequestResolv, false, [FIRST, SECOND]) && w.t == map[5 := Item(NOOP, 1)]
    ensures Reachable(w') && w'.main == Draining([]) && |w'.conns| == 1
    ensures var c := w'.conns[0];
            && c.live && c.phase == RequestConnecting && c.client.RequestSt? && c.client.req.atyp == R.DOMAIN
            && c.resolution == [FIRST, SECOND] && c.tried == 0
  {
    hide Reachable, OnBlock, Release, Next, Resolving, Enabled, Attached;
    var io := Receiving([], InProgress(6));
    assert Attached(w.t, 5) == 0 by { AttachedTo(w.t); }
    FirstTried(w.conns[0], w.t, w.g, io);
    DrainNextEnabled(w, io);
    NeverAborts(w, DrainNext(io));
    DispatchRuns(w, io);
    w' := Next(w, DrainNext(io)).w;
    assert [5][1..] == [];
  }

  lemma AttachedTo(t: Table)
    requires t == map[5 := Item(NOOP, 1)]
    ensures Attached(t, 5) == 0
  {
  }

  lemma DrainNextEnabled(w: World, io: Io)
    requires w.main.Draining? && w.main.rest != []
    ensures Enabled(w, DrainNext(io))
  {
  }

  lemma FirstTried(c: Conn, t: Table, g: Globals, io: Io)
    requires Resolving(c, RequestResolv, false, [FIRST, SECOND]) && t == map[5 := Item(NOOP, 1)]
    requires io.connect == InProgress(6)
    ensures var o := OnBlock(c, t, g, 1, io);
            && o.Out? && !o.c.spawned && o.c.live && o.c.phase == RequestConnecting && o.c.client.RequestSt?
            && o.c.client.req.atyp == R.DOMAIN && o.c.resolution == [FIRST, SECOND] && o.c.tried == 0
  {
    hide ErrorWrite;
  }

  /** The first address refuses, and there is no socket for the second: from here `LostForever` takes over. */
  lemma RetryCanBeLost()
    ensures exists w, io :: Reachable(w) && w.main.Idle? && |w.conns| == 1
              && var c := w.conns[0];
                 c.live && c.phase == RequestConnecting && WillRetry(c, io) && !RetryReaches(c, w.t, io)
  {
    hide Reachable, OnRead, Release;
    var w1, c1 := Greeted([]);
    var t, g := map[5 := Item(READ, 1)], Globals(false, [], 0, 0, 0);
    var o := Asks(c1, t, g);
    var w2 := Spawns(w1, c1, t, g, o);
    var w3 := Resolves(w2, [FIRST, SECOND]);
    var w4 := TriesFirst(w3);
    NeverAborts(w4, DrainEnd);
    var w5 := Next(w4, DrainEnd).w;
    var io := Io([], 0, NoSocket, SoError(R.ECONNREFUSED), true);
    assert WillRetry(w5.conns[0], io) && !RetryReaches(w5.conns[0], w5.t, io);
  }

  lemma Spawns(w: World, c: Conn, t: Table, g: Globals, o: Out) returns (w': World)
    requires One(w, c, t, g) && t == map[5 := Item(READ, 1)] && !c.spawned
    requires o == OnRead(c, t, g, 1, 5, Receiving(Named(), NoSocket)) && o.Out? && o.t == t
             && Resolving(o.c, RequestRead, true, [])
    ensures Reachable(w') && w'.main == Spawning(0) && w'.conns == [o.c] && w'.workers == [Started]
    ensures w'.t == t && w'.jobs == []
  {
    hide OnRead, Reachable, Release, Named;
    var s := Readable(5, Receiving(Named(), NoSocket));
    NeverAborts(w, s);
    w' := Next(w, s).w;
  }

  // ---------------------------------------------------------------- a list that is kept

  lemma NoneTried(c: Conn, t: Table, g: Globals, io: Io)
    requires Resolving(c, RequestResolv, false, [FIRST]) && t == map[5 := Item(NOOP, 1)] && io.connect.NoSocket?
    requires c.wb == Empty(RAW_BUFFER_SIZE)
    ensures var o := OnBlock(c, t, g, 1, io);
            && o.Out? && Refused(o.c) && o.t == map[5 := Item(WRITE, 1)]
  {
    assert t[5 := Item(WRITE, 1)] == map[5 := Item(WRITE, 1)];
  }

  /** The first attempt failed at once, and the client is about to be told. */
  ghost predicate Refused(c: Conn) {
    && c.live && !c.spawned && c.phase == RequestWrite && c.clientFd == 5 && c.originFd == -1 && c.references == 1
    && c.client.RequestSt? && c.client.status == R.GENERAL_FAILURE && c.resolution == [FIRST]
    && c.wb == Queue(RAW_BUFFER_SIZE, 0, R.Reply(R.GENERAL_FAILURE))
  }

  lemma TriesNone(w: World) returns (w': World)
    requires Reachable(w) && w.main == Draining([5]) && |w.conns| == |w.workers| == 1
    requires Resolving(w.conns[0], RequestResolv, false, [FIRST]) && w.t == map[5 := Item(NOOP, 1)]
    ensures Reachable(w') && w'.main == Draining([]) && |w'.conns| == |w'.workers| == 1
    ensures Refused(w'.conns[0]) && w'.t == map[5 := Item(WRITE, 1)]
  {
    hide Reachable, OnBlock, Release, Next, Resolving, Enabled, Attached, Refused;
    var io := Receiving([], NoSocket);
    assert Attached(w.t, 5) == 0 by { AttachedTo(w.t); }
    QuietWhileResolving(w);
    NoneTried(w.conns[0], w.t, w.g, io);
    DrainNextEnabled(w, io);
    NeverAborts(w, DrainNext(io));
    DispatchRuns(w, io);
    RefusedHas(BlockOf(w, 5, io).c);
    w' := Next(w, DrainNext(io)).w;
    assert [5][1..] == [];
  }

  lemma RefusedHas(c: Conn)
    requires Refused(c)
    ensures c.live && !c.spawned && c.phase == RequestWrite && c.clientFd == 5
  {
  }

  lemma QuietWhileResolving(w: World)
    requires Reachable(w) && |w.conns| == 1 && Resolving(w.conns[0], RequestResolv, false, [FIRST])
    ensures w.conns[0].wb == Empty(RAW_BUFFER_SIZE)
  {
    ReachableConn(w, 0);
    hide Reachable, H.Negotiated, H.Parsed, A.Parsed, R.Parsed;
  }

  lemma RefusedEnds(c: Conn, t: Table, g: Globals)
    requires Refused(c) && t == map[5 := Item(WRITE, 1)]
    ensures !WillRetry(c, Sending(10, OptFails))
    ensures var o := OnWrite(c, t, g, 1, 5, Sending(10, OptFails));
            o.Out? && !o.c.live && !o.c.spawned && o.c.resolution == [FIRST]
  {
  }

  /** Resolved, refused at once, told so, and released with its list. */
  lemma ListIsKept()
    ensures exists w :: Reachable(w) && |w.conns| == 1 && !w.conns[0].live && w.conns[0].resolution == [FIRST]
  {
    hide Reachable, OnRead, OnWrite, Release, Refused, WillRetry;
    var w1, c1 := Greeted([]);
    var t, g := map[5 := Item(READ, 1)], Globals(false, [], 0, 0, 0);
    var o := Asks(c1, t, g);
    var w2 := Spawns(w1, c1, t, g, o);
    var w3 := Resolves(w2, [FIRST]);
    var w4 := TriesNone(w3);
    NeverAborts(w4, DrainEnd);
    var w5 := Next(w4, DrainEnd).w;
    var s := Writable(5, Sending(10, OptFails));
    RefusedHas(w5.conns[0]);
    RefusedEnds(w5.conns[0], w5.t, w5.g);
    NeverAborts(w5, s);
    var w6 := Next(w5, s).w;
    assert !w6.conns[0].live;
  }
}
