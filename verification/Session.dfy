/**
 * One proxied connection: the state machine of socks5nio.c driven by stm.c, handler by handler.
 * A handler maps the connection, the selector table and the process-wide variables to their new
 * values and to the next state. What the kernel answers is the argument `io`.
 */
module Session {
  import opened Bytes
  import opened Buffers
  import opened Incremental
  import opened Selector
  import H = Hello
  import A = Auth
  import R = Request
  import Accounts

  const RAW_BUFFER_SIZE := 1024

  /** `Fresh` is the machine before its first event, when stm->current is NULL. */
  datatype Phase =
    | Fresh | HelloRead | HelloWrite | AuthRead | AuthWrite
    | RequestRead | RequestResolv | RequestConnecting | RequestWrite | Copy | Done | Error

  /** The two tagged unions: only the member written last can be read. */
  datatype ClientData =
    | NoClient
    | HelloSt(hello: H.Negotiation)
    | AuthSt(auth: A.Credentials, verdict: byte)
    | RequestSt(req: R.Req, status: byte)
    | ClientCopy(cDuplex: Interest)

  datatype OriginData = NoOrigin | Connecting | OriginCopy(oDuplex: Interest)

  datatype Addr = NoAddr | Addr(atyp: byte, ip: seq<byte>, port: seq<byte>)

  type User = Accounts.User

  /** Why a connection may send requests. */
  datatype Gate = Shut | AuthOff | Matched(user: User)

  /** History of a connection; no handler reads it. */
  datatype Log = Log(
    fromClient: seq<byte>, toClient: seq<byte>, fromOrigin: seq<byte>, toOrigin: seq<byte>,
    hello: seq<byte>, auth: seq<byte>, request: seq<byte>,  // bytes eaten by each parser
    replies: seq<byte>,                                     // bytes marshalled for the client
    authAtHello: bool,                                      // authentication flag when HELLO began
    early: nat,                                             // bytes of the offer eaten before that changed, if it did
    authAtFlush: bool,                                      // the flag when the method had been sent
    chosen: byte, gate: Gate, copied: bool, touched: bool, spawns: nat, dispatches: nat,
    resolved: seq<Addr>)                                    // what the name resolved to

  datatype Conn = Conn(
    live: bool, obj: nat, references: nat,
    clientFd: int, originFd: int,
    phase: Phase, client: ClientData, origin: OriginData,
    rb: Queue, wb: Queue,
    resolution: seq<Addr>, tried: nat, target: Addr,
    spawned: bool,  // the DNS thread runs and request_process has not returned yet
    log: Log)

  datatype Globals = Globals(authOn: bool, users: seq<User>, historic: nat, current: nat, transferred: nat)

  datatype ConnectIo = NoSocket | Refused(e: R.Failure) | InProgress(fd: int)
  datatype SockOpt = OptFails | SoError(e: R.Errno)

  /** Kernel answers: bytes on offer ([] is EOF or error), bytes send would take (negative is failure). */
  datatype Io = Io(recv: seq<byte>, send: int, connect: ConnectIo, sockopt: SockOpt, memory: bool)

  /** `Abort` stands for abort(), a failed assertion, a wrong union member or a released object. */
  datatype Out = Abort | Out(c: Conn, t: Table, g: Globals, ret: Phase)

  /** What no handler of the handshake touches. */
  predicate Steady(c: Conn, g: Globals, o: Out) {
    o.Out? ==>
      && o.g == g && o.c.obj == c.obj && o.c.clientFd == c.clientFd
      && o.c.log.copied == c.log.copied && o.c.log.touched == c.log.touched
      && o.c.log.toOrigin == c.log.toOrigin && o.c.log.fromOrigin == c.log.fromOrigin
      && Opened(c.log.gate, o.c.log.gate, g) && Hopped(c, o.c)
      && (o.c.spawned && !c.spawned ==> o.ret == RequestRead)
  }

  /** A gate opens for the reason of the moment: authentication is off, or a stored user matched. */
  predicate Opened(before: Gate, after: Gate, g: Globals) {
    after == before || after == Shut || (after == AuthOff && !g.authOn) || (after.Matched? && after.user in g.users)
  }

  /** Resolutions are counted when their thread is created and when their block handler runs. */
  predicate Hopped(c: Conn, d: Conn) {
    && d.log.dispatches == c.log.dispatches
    && (c.spawned || d.log.spawns == c.log.spawns + if d.spawned then 1 else 0)
  }

  const EMPTY_LOG :=
    Log([], [], [], [], [], [], [], [], true, 0, false, H.NO_ACCEPTABLE, Shut, false, false, 0, 0, [])

  /** socks5_new */
  function NewConn(obj: nat, fd: int): Conn {
    Conn(true, obj, 1, fd, -1, Fresh, NoClient, NoOrigin, Empty(RAW_BUFFER_SIZE), Empty(RAW_BUFFER_SIZE),
         [], 0, NoAddr, false, EMPTY_LOG)
  }

  // ---------------------------------------------------------------- kernel

  /** recv returns at most the space offered; with no space it returns 0, like an EOF. */
  function Received(q: Queue, offered: seq<byte>): seq<byte> {
    if |offered| <= q.Space() then offered else if q.Space() <= 0 then [] else offered[..q.Space()]
  }

  function Sent(q: Queue, n: int): (r: int)
    ensures -1 <= r <= |q.bytes|
  {
    if n < 0 then -1 else if n <= |q.bytes| then n else |q.bytes|
  }

  // ---------------------------------------------------------------- HELLO

  /** handle_first with the arrival hook of HELLO_READ, which turns authentication off for an empty table. */
  function FirstGlobals(c: Conn, g: Globals): Globals {
    if c.phase == Fresh && g.users == [] then g.(authOn := false) else g
  }

  function HandleFirst(c: Conn, g: Globals): Conn {
    if c.phase == Fresh then
      c.(phase := HelloRead, client := HelloSt(H.INIT), log := c.log.(authAtHello := FirstGlobals(c, g).authOn))
    else c
  }

  /** hello_consume on what is buffered once `data` has arrived. */
  function AfterHello(c: Conn, authOn: bool, data: seq<byte>): Conn
    requires c.client.HelloSt?
  {
    var q := c.rb.Put(data);
    var p := H.Parsed(authOn, c.client.hello, q.bytes);
    c.(rb := q.Take(p.eaten), client := HelloSt(p.st),
       log := c.log.(fromClient := c.log.fromClient + data, hello := c.log.hello + q.bytes[..p.eaten],
                     early := if authOn == c.log.authAtHello then |c.log.hello| + p.eaten else c.log.early))
  }

  /** hello_process: the reply with the selected method. */
  function Greeting(c: Conn): Conn
    requires c.client.HelloSt?
  {
    var chosen := c.client.hello.chosen;
    c.(wb := c.wb.Put(H.Reply(chosen)),
       log := c.log.(replies := c.log.replies + H.Reply(chosen), chosen := chosen))
  }

  function HelloReadH(c: Conn, t: Table, g: Globals, fd: int, io: Io): (o: Out)
    ensures Steady(c, g, o)
  {
    if !c.client.HelloSt? then Abort else
    var data := Received(c.rb, io.recv);
    if data == [] then Out(c, t, g, Error) else
    var c1 := AfterHello(c, g.authOn, data);
    var p := c1.client.hello;
    if !H.IsDone(p) then Out(c1, t, g, HelloRead) else
    var s := AfterSetInterest(t, fd, WRITE);
    if s.status != SUCCESS || c1.wb.Space() < 2 then Out(c1, s.table, g, Error) else
    Out(Greeting(c1), s.table, g, if H.Errored(p) then Error else HelloWrite)
  }

  /** What every write handler of the handshake does first. */
  function Flushed(c: Conn, n: nat): Conn
    requires n <= |c.wb.bytes|
  {
    c.(wb := c.wb.Take(n), log := c.log.(toClient := c.log.toClient + c.wb.bytes[..n]))
  }

  function HelloWriteH(c: Conn, t: Table, g: Globals, fd: int, io: Io): (o: Out)
    ensures Steady(c, g, o)
  {
    if !c.client.HelloSt? then Abort else
    var n := Sent(c.wb, io.send);
    if n < 0 then Out(c, t, g, Error) else
    var c1 := Flushed(c, n);
    if c1.wb.CanRead() then Out(c1, t, g, HelloWrite) else MethodSent(c1, t, g, fd)
  }

  /** The method is out: the flag decides what is read next. */
  function MethodSent(c: Conn, t: Table, g: Globals, fd: int): (o: Out)
    ensures Steady(c, g, o)
  {
    var s := AfterSetInterest(t, fd, READ);
    if s.status != SUCCESS then Out(c, t, g, Error)
    else if g.authOn then Out(c.(log := c.log.(authAtFlush := true)), s.table, g, AuthRead)
    else Out(c.(log := c.log.(gate := AuthOff, authAtFlush := false)), s.table, g, RequestRead)
  }

  // ---------------------------------------------------------------- AUTH

  predicate Matches(u: User, cred: A.Credentials) {
    CString(cred.uname) == u.name && CString(cred.passwd) == u.pass
  }

  /** The first user that matches, by the loop of auth_process. */
  function FindUser(users: seq<User>, cred: A.Credentials): (r: Gate)
    ensures r == Shut <==> forall i :: 0 <= i < |users| ==> !Matches(users[i], cred)
    ensures r != Shut ==> r.Matched? && r.user in users && Matches(r.user, cred)
  {
    if users == [] then Shut
    else if Matches(users[0], cred) then Matched(users[0])
    else
      var r := FindUser(users[1..], cred);
      assert forall i :: 1 <= i < |users| ==> users[i] == users[1..][i - 1];
      r
  }

  function AfterAuth(c: Conn, data: seq<byte>): Conn
    requires c.client.AuthSt?
  {
    var q := c.rb.Put(data);
    var p := A.Parsed(c.client.auth, q.bytes);
    c.(rb := q.Take(p.eaten), client := c.client.(auth := p.st),
       log := c.log.(fromClient := c.log.fromClient + data, auth := c.log.auth + q.bytes[..p.eaten]))
  }

  function AuthReadH(c: Conn, t: Table, g: Globals, fd: int, io: Io): (o: Out)
    ensures Steady(c, g, o)
  {
    if !c.client.AuthSt? then Abort else
    var data := Received(c.rb, io.recv);
    if data == [] then Out(c, t, g, Error) else
    var c1 := AfterAuth(c, data);
    if !A.IsDone(c1.client.auth) then Out(c1, t, g, AuthRead) else
    var s := AfterSetInterest(t, fd, WRITE);
    if s.status != SUCCESS then Out(c1, t, g, Error)
    else AuthProcess(c1, s.table, g, c1.client.auth)
  }

  function Judged(c: Conn, verdict: byte, gate: Gate): Conn
    requires c.client.AuthSt?
  {
    c.(client := c.client.(verdict := verdict), wb := c.wb.Put(A.Reply(verdict)),
       log := c.log.(replies := c.log.replies + A.Reply(verdict), gate := gate))
  }

  function AuthProcess(c: Conn, t: Table, g: Globals, cred: A.Credentials): (o: Out)
    ensures Steady(c, g, o)
  {
    var found := FindUser(g.users, cred);
    var verdict := if found == Shut then A.FAILURE else A.SUCCEEDED;
    if !c.client.AuthSt? || c.wb.Space() < 2 then Abort
    else Out(Judged(c, verdict, found), t, g, if A.Errored(cred) then Error else AuthWrite)
  }

  function AuthWriteH(c: Conn, t: Table, g: Globals, fd: int, io: Io): (o: Out)
    ensures Steady(c, g, o)
  {
    if !c.client.AuthSt? then Abort else
    var n := Sent(c.wb, io.send);
    if n < 0 then Out(c, t, g, Error) else
    var c1 := Flushed(c, n);
    if c1.wb.CanRead() then Out(c1, t, g, AuthWrite) else VerdictSent(c1, t, g, fd)
  }

  /** The verdict is out: go on, or give up. */
  function VerdictSent(c: Conn, t: Table, g: Globals, fd: int): (o: Out)
    requires c.client.AuthSt?
    ensures Steady(c, g, o)
  {
    if c.client.verdict == A.SUCCEEDED then
      var s := AfterSetInterest(t, fd, READ);
      Out(c, s.table, g, if s.status == SUCCESS then RequestRead else Error)
    else
      Out(c, AfterSetInterest(t, fd, NOOP).table, g, Error)
  }

  // ---------------------------------------------------------------- REQUEST

  function AfterRequest(c: Conn, data: seq<byte>): Conn
    requires c.client.RequestSt?
  {
    var q := c.rb.Put(data);
    var p := R.Parsed(c.client.req, q.bytes);
    c.(rb := q.Take(p.eaten), client := c.client.(req := p.st),
       log := c.log.(fromClient := c.log.fromClient + data, request := c.log.request + q.bytes[..p.eaten]))
  }

  function RequestReadH(c: Conn, t: Table, g: Globals, id: nat, io: Io): (o: Out)
    ensures Steady(c, g, o)
  {
    if !c.client.RequestSt? then Abort else
    var data := Received(c.rb, io.recv);
    if data == [] then Out(c, t, g, Error) else
    var c1 := AfterRequest(c, data);
    if R.Errored(c1.client.req) then Out(c1, t, g, Error)
    else if !R.IsDone(c1.client.req) then Out(c1, t, g, RequestRead)
    else RequestProcess(c1, t, g, id, io)
  }

  /** A reply to the request is marshalled and its status recorded. */
  function Answering(c: Conn, status: byte): Conn
    requires c.client.RequestSt?
  {
    c.(client := c.client.(status := status), wb := c.wb.Put(R.Reply(status)),
       log := c.log.(replies := c.log.replies + R.Reply(status)))
  }

  /** request_error_write */
  function ErrorWrite(c: Conn, t: Table, g: Globals, status: byte): (o: Out)
    ensures Steady(c, g, o)
  {
    if !c.client.RequestSt? || c.wb.Space() < 10 then Abort else
    var s := AfterSetInterest(t, c.clientFd, WRITE);
    Out(Answering(c, status), s.table, g, if s.status == SUCCESS then RequestWrite else Error)
  }

  /** The address a finished request names, when it names one. */
  function TargetOf(r: R.Req): Addr {
    var n := if r.atyp == R.IPV4 then 4 else 16;
    Addr(r.atyp, if n <= |r.addr| then r.addr[..n] else r.addr, r.port)
  }

  /** With a domain name the handler stops where the DNS thread has just been created. */
  function RequestProcess(c: Conn, t: Table, g: Globals, id: nat, io: Io): (o: Out)
    ensures Steady(c, g, o)
  {
    if !c.client.RequestSt? then Abort else
    var r := c.client.req;
    if r.cmd != R.CONNECT then ErrorWrite(c, t, g, R.COMMAND_NOT_SUPPORTED)
    else if r.atyp == R.IPV4 || r.atyp == R.IPV6 then
      RequestConnect(c.(target := TargetOf(r)), t, g, id, io)
    else if r.atyp != R.DOMAIN then ErrorWrite(c, t, g, R.ADDRESS_NOT_SUPPORTED)
    else if !io.memory then ErrorWrite(c, t, g, R.GENERAL_FAILURE)
    else Out(c.(spawned := true, log := c.log.(spawns := c.log.spawns + 1)), t, g, RequestRead)
  }

  /** The rest of request_process and of its callers once the thread exists. */
  function FinishSpawn(c: Conn, t: Table, g: Globals): Out {
    Jump(Out(c.(spawned := false), AfterSetInterest(t, c.clientFd, NOOP).table, g, RequestResolv))
  }

  /** request_resolv_blocking: getaddrinfo stores its list in the connection; [] stands for NULL. */
  function Answered(c: Conn, found: seq<Addr>): Conn {
    c.(resolution := found, log := c.log.(resolved := found))
  }

  function Dispatched(c: Conn): Conn {
    c.(log := c.log.(dispatches := c.log.dispatches + 1))
  }

  /** request_resolv_done, the block handler. */
  function ResolvDoneH(c0: Conn, t: Table, g: Globals, id: nat, io: Io): (o: Out)
    ensures Steady(Dispatched(c0), g, o)
  {
    var c := Dispatched(c0);
    if c.resolution == [] then ErrorWrite(c, t, g, R.HOST_UNREACHABLE)
    else RequestConnect(c.(tried := 0, target := c.resolution[0]), t, g, id, io)
  }

  /** socks5_destroy: releases on the last reference. */
  function Destroy(c: Conn): Conn {
    if c.references == 1 then c.(live := false) else c.(references := if c.references > 0 then c.references - 1 else 0)
  }

  /** On a retry the previous origin descriptor is closed first. */
  function DropOrigin(c: Conn, t: Table): (Conn, Table) {
    var u := AfterUnregister(t, c.originFd);
    (if u.status == SUCCESS then Destroy(c) else c, u.table)
  }

  /** The connection is in progress: stop reading the client and watch the new descriptor. */
  function Awaiting(c: Conn, t: Table, g: Globals, id: nat, fd: int): (o: Out)
    ensures Steady(c, g, o)
  {
    if !c.client.RequestSt? then Abort else
    var failed := c.(originFd := -1);
    var s1 := AfterSetInterest(t, c.clientFd, NOOP);
    if s1.status != SUCCESS then ErrorWrite(failed, s1.table, g, c.client.status) else
    var s2 := AfterRegister(s1.table, fd, WRITE, id);
    if s2.status != SUCCESS then ErrorWrite(failed, s2.table, g, c.client.status) else
    Out(c.(originFd := fd, references := c.references + 1), s2.table, g, RequestConnecting)
  }

  function RequestConnect(c0: Conn, t0: Table, g: Globals, id: nat, io: Io): (o: Out)
    ensures Steady(c0, g, o)
  {
    var (c, t) := if c0.phase == RequestConnecting then DropOrigin(c0, t0) else (c0, t0);
    if !c.live || !c.client.RequestSt? then Abort else
    var failed := c.(originFd := -1);
    match io.connect
    case NoSocket => ErrorWrite(failed, t, g, R.GENERAL_FAILURE)
    case Refused(e) => ErrorWrite(failed, t, g, R.ErrnoToSocks(e))
    case InProgress(fd) => Awaiting(c, t, g, id, fd)
  }

  /** A retry goes on to the next address; what request_connect returns is ignored there. */
  function Retry(c: Conn, t: Table, g: Globals, id: nat, io: Io): (o: Out)
    requires c.tried + 1 < |c.resolution|
    ensures Steady(c, g, o)
  {
    var k := c.tried + 1;
    match RequestConnect(c.(tried := k, target := c.resolution[k]), t, g, id, io)
    case Abort => Abort
    case Out(c', t', g', _) => Out(c', t', g', RequestConnecting)
  }

  predicate WillRetry(c: Conn, io: Io) {
    && c.client.RequestSt? && c.client.req.atyp == R.DOMAIN && c.tried + 1 < |c.resolution|
    && io.sockopt.SoError? && io.sockopt.e != R.NoError
  }

  function ConnectingH(c: Conn, t: Table, g: Globals, id: nat, fd: int, io: Io): (o: Out)
    ensures Steady(c, g, o)
  {
    if !c.client.RequestSt? || !c.origin.Connecting? then Abort
    else if WillRetry(c, io) then Retry(c, t, g, id, io)
    else
      match io.sockopt
      case OptFails => Connected(c, t, g, fd, R.GENERAL_FAILURE)
      case SoError(e) =>
        if e.NoError? then Connected(c.(originFd := fd), t, g, fd, R.SUCCEEDED)
        else if c.client.req.atyp == R.DOMAIN && c.resolution == [] then Abort
        else Connected(c, t, g, fd, R.ErrnoToSocks(e))
  }

  /** The end of request_connecting: free the resolution, marshal, wake the client. */
  function Connected(c: Conn, t: Table, g: Globals, fd: int, status: byte): (o: Out)
    ensures Steady(c, g, o)
  {
    if !c.client.RequestSt? || c.wb.Space() < 10 then Abort else
    var name := c.client.req.atyp == R.DOMAIN;
    var c1 := Answering(c, status).(resolution := if name then [] else c.resolution,
                                    tried := if name then 0 else c.tried);
    var s1 := AfterSetInterest(t, c.clientFd, WRITE);
    var s2 := AfterSetInterest(s1.table, fd, NOOP);
    Out(c1, s2.table, g, if s1.status == SUCCESS && s2.status == SUCCESS then RequestWrite else Error)
  }

  function RequestWriteH(c: Conn, t: Table, g: Globals, io: Io): (o: Out)
    ensures o.Out? ==> o.c.log.gate == c.log.gate && o.c.spawned == c.spawned
                       && o.c.log.spawns == c.log.spawns && o.c.log.dispatches == c.log.dispatches
  {
    if !c.client.RequestSt? then Abort else
    var n := Sent(c.wb, io.send);
    if n < 0 then Out(c, t, g, Error) else
    var c1 := Flushed(c, n);
    if c1.wb.CanRead() then Out(c1, t, g, RequestWrite) else Replied(c1, t, g)
  }

  /** The reply has been sent: relay, or give up. */
  function Replied(c: Conn, t: Table, g: Globals): Out
    requires c.client.RequestSt?
  {
    if c.client.status == R.SUCCEEDED then
      var t1 := AfterSetInterest(t, c.clientFd, READ).table;
      var t2 := AfterSetInterest(t1, c.originFd, READ).table;
      var g1 := g.(historic := (g.historic + 1) % U32, current := (g.current + 1) % U32);
      Out(c.(log := c.log.(copied := true)), t2, g1, Copy)
    else
      var t1 := AfterSetInterest(t, c.clientFd, NOOP).table;
      Out(c, if c.originFd != -1 then AfterSetInterest(t1, c.originFd, NOOP).table else t1, g, Error)
  }

  // ---------------------------------------------------------------- COPY

  /** copy_compute_interests, without the selector call. */
  function Wanted(duplex: Interest, rb: Queue, wb: Queue): Interest {
    Interest(duplex.read && rb.CanWrite(), duplex.write && wb.CanRead())
  }

  function ClientWants(c: Conn): Interest
    requires c.client.ClientCopy?
  {
    Wanted(c.client.cDuplex, c.rb, c.wb)
  }

  function OriginWants(c: Conn): Interest
    requires c.origin.OriginCopy?
  {
    Wanted(c.origin.oDuplex, c.wb, c.rb)
  }

  /** The common end of copy_r and copy_w: recompute both interests, then test the end that ran. */
  function CopyEnd(c: Conn, t: Table, g: Globals, mine: Interest): (o: Out)
    ensures o.Out? ==> o.c == c && (o.ret == Copy || o.ret == Done)
  {
    if !c.client.ClientCopy? || !c.origin.OriginCopy? then Abort else
    var s1 := AfterSetInterest(t, c.clientFd, ClientWants(c));
    var s2 := AfterSetInterest(s1.table, c.originFd, OriginWants(c));
    if s1.status != SUCCESS || s2.status != SUCCESS then Abort
    else if mine == NOOP then Out(c, s2.table, g.(current := (g.current + U32 - 1) % U32), Done)
    else Out(c, s2.table, g, Copy)
  }

  function CopyReadClient(c: Conn, data: seq<byte>): Conn
    requires c.client.ClientCopy? && c.origin.OriginCopy?
  {
    var l := c.log.(touched := true);
    if data == [] then
      c.(client := ClientCopy(c.client.cDuplex.(read := false)),
         origin := OriginCopy(c.origin.oDuplex.(write := false)), log := l)
    else
      c.(rb := c.rb.Put(data), log := l.(fromClient := l.fromClient + data))
  }

  function CopyReadOrigin(c: Conn, data: seq<byte>): Conn
    requires c.client.ClientCopy? && c.origin.OriginCopy?
  {
    var l := c.log.(touched := true);
    if data == [] then
      c.(origin := OriginCopy(c.origin.oDuplex.(read := false)),
         client := ClientCopy(c.client.cDuplex.(write := false)), log := l)
    else
      c.(wb := c.wb.Put(data), log := l.(fromOrigin := l.fromOrigin + data))
  }

  /** What the copy handlers never touch, and the bytes the connection has sent to either side. */
  predicate SameRelay(c: Conn, d: Conn) {
    && d.obj == c.obj && d.clientFd == c.clientFd && d.log.copied == c.log.copied && d.log.replies == c.log.replies
    && d.log.gate == c.log.gate && d.spawned == c.spawned
    && d.log.spawns == c.log.spawns && d.log.dispatches == c.log.dispatches
  }

  function Relayed(c: Conn): nat {
    |c.log.toOrigin| + |c.log.toClient|
  }

  /** copy_r; copy_ptr picks the end whose descriptor fired. */
  function CopyReadH(c: Conn, t: Table, g: Globals, fd: int, io: Io): (o: Out)
    ensures o.Out? ==> SameRelay(c, o.c) && Relayed(o.c) == Relayed(c)
  {
    if !c.client.ClientCopy? || !c.origin.OriginCopy? || (fd != c.clientFd && fd != c.originFd) then Abort
    else if fd == c.clientFd then
      var c1 := CopyReadClient(c, Received(c.rb, io.recv));
      CopyEnd(c1, t, g, c1.client.cDuplex)
    else
      var c1 := CopyReadOrigin(c, Received(c.wb, io.recv));
      CopyEnd(c1, t, g, c1.origin.oDuplex)
  }

  function CopyWriteClient(c: Conn, n: int): Conn
    requires c.client.ClientCopy? && c.origin.OriginCopy? && n <= |c.wb.bytes|
  {
    var l := c.log.(touched := true);
    if n < 0 then
      c.(client := ClientCopy(c.client.cDuplex.(write := false)),
         origin := OriginCopy(c.origin.oDuplex.(read := false)), log := l)
    else
      c.(wb := c.wb.Take(n), log := l.(toClient := l.toClient + c.wb.bytes[..n]))
  }

  function CopyWriteOrigin(c: Conn, n: int): Conn
    requires c.client.ClientCopy? && c.origin.OriginCopy? && n <= |c.rb.bytes|
  {
    var l := c.log.(touched := true);
    if n < 0 then
      c.(origin := OriginCopy(c.origin.oDuplex.(write := false)),
         client := ClientCopy(c.client.cDuplex.(read := false)), log := l)
    else
      c.(rb := c.rb.Take(n), log := l.(toOrigin := l.toOrigin + c.rb.bytes[..n]))
  }

  function Counted(g: Globals, n: int): Globals {
    if n < 0 then g else g.(transferred := (g.transferred + n) % U32)
  }

  /** copy_w */
  function CopyWriteH(c: Conn, t: Table, g: Globals, fd: int, io: Io): (o: Out)
    ensures var n := Sent(if fd == c.clientFd then c.wb else c.rb, io.send);
            o.Out? ==> SameRelay(c, o.c) && Relayed(o.c) == Relayed(c) + if n < 0 then 0 else n
  {
    if !c.client.ClientCopy? || !c.origin.OriginCopy? || (fd != c.clientFd && fd != c.originFd) then Abort
    else if fd == c.clientFd then
      var n := Sent(c.wb, io.send);
      var c1 := CopyWriteClient(c, n);
      CopyEnd(c1, t, Counted(g, n), c1.client.cDuplex)
    else
      var n := Sent(c.rb, io.send);
      var c1 := CopyWriteOrigin(c, n);
      CopyEnd(c1, t, Counted(g, n), c1.origin.oDuplex)
  }

  // ---------------------------------------------------------------- the engine of stm.c

  /** jump: nothing on staying; otherwise the arrival hook of the new state initialises its data. */
  function Jump(o: Out): Out {
    match o
    case Abort => Abort
    case Out(c, t, g, ret) =>
      if c.phase == ret then o
      else Out(Arrive(c.(phase := ret)), t, g, ret)
  }

  function Arrive(c: Conn): Conn {
    match c.phase
    case AuthRead => c.(client := AuthSt(A.INIT, A.FAILURE))
    case RequestRead => c.(client := RequestSt(R.INIT, R.GENERAL_FAILURE))
    case RequestConnecting => c.(origin := Connecting)
    case Copy => c.(client := ClientCopy(BOTH), origin := OriginCopy(BOTH))
    case _ => c
  }

  /** selector_unregister_fd as socksv5_done uses it: failure aborts, and the close callback drops a reference. */
  function CloseFd(o: Out, fd: int): Out {
    match o
    case Abort => Abort
    case Out(c, t, g, ret) =>
      if fd == -1 then o else
      var u := AfterUnregister(t, fd);
      if u.status != SUCCESS || !c.live then Abort else Out(Destroy(c), u.table, g, ret)
  }

  /** The tail of socksv5_read, _write and _block: a terminal state releases both descriptors. */
  function Settle(o: Out): Out {
    match o
    case Abort => Abort
    case Out(c, t, g, ret) =>
      if ret == Done || ret == Error then CloseFd(CloseFd(o, c.clientFd), c.originFd) else o
  }

  function ReadHandler(c: Conn, t: Table, g: Globals, id: nat, fd: int, io: Io): Out {
    match c.phase
    case HelloRead => HelloReadH(c, t, g, fd, io)
    case AuthRead => AuthReadH(c, t, g, fd, io)
    case RequestRead => RequestReadH(c, t, g, id, io)
    case Copy => CopyReadH(c, t, g, fd, io)
    case _ => Abort
  }

  function WriteHandler(c: Conn, t: Table, g: Globals, id: nat, fd: int, io: Io): Out {
    match c.phase
    case HelloWrite => HelloWriteH(c, t, g, fd, io)
    case AuthWrite => AuthWriteH(c, t, g, fd, io)
    case RequestConnecting => ConnectingH(c, t, g, id, fd, io)
    case RequestWrite => RequestWriteH(c, t, g, io)
    case Copy => CopyWriteH(c, t, g, fd, io)
    case _ => Abort
  }

  function OnRead(c: Conn, t: Table, g: Globals, id: nat, fd: int, io: Io): Out {
    Settle(Jump(ReadHandler(HandleFirst(c, g), t, FirstGlobals(c, g), id, fd, io)))
  }

  function OnWrite(c: Conn, t: Table, g: Globals, id: nat, fd: int, io: Io): Out {
    Settle(Jump(WriteHandler(HandleFirst(c, g), t, FirstGlobals(c, g), id, fd, io)))
  }

  function OnBlock(c: Conn, t: Table, g: Globals, id: nat, io: Io): Out {
    if c.phase == RequestResolv then Settle(Jump(ResolvDoneH(c, t, g, id, io))) else Abort
  }
}
