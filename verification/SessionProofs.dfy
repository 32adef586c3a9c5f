/** Every handler, followed by the jump of the engine, keeps the invariant of its connection. */
module SessionProofs {
  import opened Bytes
  import opened Buffers
  import opened Incremental
  import opened Selector
  import opened Session
  import opened SessionInvariant
  import H = Hello
  import A = Auth
  import R = Request

  // ---------------------------------------------------------------- streams

  /** Receiving `data` and eating `k` bytes of what is then in the buffer. */
  lemma Eats(q: Queue, data: seq<byte>, k: nat, before: seq<byte>, stream: seq<byte>)
    requires Carries(stream, q, before) && |data| <= q.Space() && k <= |q.bytes| + |data|
    ensures var p := q.Put(data); Carries(stream + data, p.Take(k), before + p.bytes[..k])
  {
    var p := q.Put(data);
    assert p.Take(k).bytes == p.bytes[k..];
    assert (before + p.bytes[..k]) + p.bytes[k..] == before + p.bytes == stream + data;
  }

  /** A reply goes behind what is already buffered for the client. */
  lemma Answers(replies: seq<byte>, q: Queue, out: seq<byte>, reply: seq<byte>)
    requires Carries(replies + [], q, out) && 0 < |reply| <= q.Space()
    ensures Carries((replies + reply) + [], q.Put(reply), out)
  {
    assert replies + [] == replies && (replies + reply) + [] == replies + reply;
    assert out + (q.bytes + reply) == (out + q.bytes) + reply;
  }

  /** Sending `n` bytes moves them from the buffer to the stream that comes out. */
  lemma Sends(inn: seq<byte>, q: Queue, out: seq<byte>, n: nat)
    requires Carries(inn, q, out) && n <= |q.bytes|
    ensures Carries(inn, q.Take(n), out + q.bytes[..n])
  {
    assert q.bytes == q.bytes[..n] + q.bytes[n..];
    assert (out + q.bytes[..n]) + q.bytes[n..] == out + q.bytes;
  }

  lemma NothingBuffered(inn: seq<byte>, q: Queue, out: seq<byte>)
    requires Carries(inn, q, out) && inn == []
    ensures q.bytes == [] && out == []
  {
    assert |out + q.bytes| == 0;
  }

  lemma ParsersStart()
    ensures A.Parsed(A.INIT, []).st == A.INIT && !A.IsDone(A.INIT)
    ensures R.Parsed(R.INIT, []).st == R.INIT && !R.IsDone(R.INIT)
    ensures H.Parsed(true, H.INIT, []) == H.Parsed(false, H.INIT, []) == Parse(H.INIT, 0) && !H.IsDone(H.INIT)
  {
  }

  /** Nothing but the streams matters to the streams. */
  lemma StreamsAgree(c: Conn, d: Conn)
    requires Streams(c) && d.rb == c.rb && d.wb == c.wb
    requires d.log.fromClient == c.log.fromClient && d.log.toClient == c.log.toClient
    requires d.log.fromOrigin == c.log.fromOrigin && d.log.toOrigin == c.log.toOrigin && d.log.replies == c.log.replies
    requires d.log.hello == c.log.hello && d.log.auth == c.log.auth && d.log.request == c.log.request
    ensures Streams(d)
  {
    hide Carries;
  }

  lemma FlushStreams(c: Conn, n: nat)
    requires Streams(c) && n <= |c.wb.bytes|
    ensures Streams(Flushed(c, n))
  {
    Sends(c.log.replies + c.log.fromOrigin, c.wb, c.log.toClient, n);
  }

  lemma BufferOk(c: Conn)
    requires Streams(c)
    ensures c.wb.Canonical() && c.wb.cap == RAW_BUFFER_SIZE
    ensures c.log.toClient + c.wb.bytes == c.log.replies + c.log.fromOrigin
  {
    hide Spent;
  }

  /** The answer to the request goes behind what is buffered. */
  lemma AnswerStreams(c: Conn, status: byte)
    requires Streams(c) && c.client.RequestSt? && c.log.fromOrigin == [] && c.wb.Space() >= 10
    ensures Streams(Answering(c, status))
  {
    Answers(c.log.replies, c.wb, c.log.toClient, R.Reply(status));
    hide R.Reply;
  }

  // ---------------------------------------------------------------- HELLO

  lemma HelloEats(l: Log, p: H.Negotiation, authOn: bool, bs: seq<byte>)
    requires HelloTracks(l, p, authOn) && !H.IsDone(p)
    ensures var r := H.Parsed(authOn, p, bs);
            var early := if authOn == l.authAtHello then |l.hello| + r.eaten else l.early;
            HelloTracks(l.(hello := l.hello + bs[..r.eaten], early := early), r.st, authOn)
  {
    var e := bs[..H.Parsed(authOn, p, bs).eaten];
    if l.authAtHello == authOn {
      H.NegotiatedSteady(authOn, l.hello);
      ConsumeMore(H.Feeder(authOn), H.IsDone, H.INIT, l.hello, bs);
      H.NegotiatedSteady(authOn, l.hello + e);
    } else {
      var early, q := l.hello[..l.early], H.Parsed(l.authAtHello, H.INIT, l.hello[..l.early]).st;
      assert (l.hello + e)[..l.early] == early && (l.hello + e)[l.early..] == l.hello[l.early..] + e;
      if l.early == |l.hello| {
        assert l.hello[l.early..] == [];
      }
      ConsumeMore(H.Feeder(false), H.IsDone, q, l.hello[l.early..], bs);
    }
  }

  /** Eating part of the offer keeps the stream and the parser in step. */
  lemma HelloTaken(c: Conn, authOn: bool, data: seq<byte>)
    requires c.client.HelloSt? && !H.IsDone(c.client.hello) && HelloTracks(c.log, c.client.hello, authOn)
    requires c.log.auth == [] && c.log.request == [] && c.log.toOrigin == []
    requires Carries(c.log.fromClient, c.rb, Spent(c.log)) && 0 < |data| <= c.rb.Space()
    ensures var d := AfterHello(c, authOn, data);
            && d == c.(rb := d.rb, client := HelloSt(d.client.hello),
                       log := c.log.(fromClient := d.log.fromClient, hello := d.log.hello, early := d.log.early))
            && Carries(d.log.fromClient, d.rb, Spent(d.log)) && HelloTracks(d.log, d.client.hello, authOn)
  {
    hide H.Next, H.IsDone;
    var q := c.rb.Put(data);
    var p := H.Parsed(authOn, c.client.hello, q.bytes);
    HelloEats(c.log, c.client.hello, authOn, q.bytes);
    hide H.Parsed;
    Eats(c.rb, data, p.eaten, Spent(c.log), c.log.fromClient);
    assert Spent(c.log.(hello := c.log.hello + q.bytes[..p.eaten])) == Spent(c.log) + q.bytes[..p.eaten];
    assert AfterHello(c, authOn, data).client == HelloSt(p.st);
  }

  lemma HelloReadKeeps(c: Conn, t: Table, g: Globals, id: nat, io: Io)
    requires ConnInv(c, t, id, g.authOn) && c.phase == HelloRead
    ensures Jumped(Jump(HelloReadH(c, t, g, c.clientFd, io)), t, id)
    ensures Jump(HelloReadH(c, t, g, c.clientFd, io)).g == g
  {
    FrameSelf(t, id);
    hide H.Parsed, A.Parsed, R.Parsed, Owned, Frame, H.Next, AfterHello, Spent;
    var data := Received(c.rb, io.recv);
    if data != [] {
      HelloTaken(c, g.authOn, data);
      var d := AfterHello(c, g.authOn, data);
      NothingBuffered(c.log.replies + c.log.fromOrigin, c.wb, c.log.toClient);
      Answers(c.log.replies, c.wb, c.log.toClient, H.Reply(d.client.hello.chosen));
      InterestOnOwn(c.clientFd, c.originFd, c.references, t, id, c.clientFd, WRITE);
      SpentIgnoresReplies(d);
    }
  }

  lemma SpentIgnoresReplies(c: Conn)
    requires c.client.HelloSt?
    ensures Spent(Greeting(c).log) == Spent(c.log)
  {
  }

  /** Sending part of a handshake reply leaves the connection as good as it was. */
  lemma HandshakeFlushKeeps(c: Conn, t: Table, id: nat, authOn: bool, n: nat)
    requires ConnInv(c, t, id, authOn) && (c.phase == HelloWrite || c.phase == AuthWrite) && n <= |c.wb.bytes|
    ensures ConnInv(Flushed(c, n), t, id, authOn)
  {
    hide H.Parsed, A.Parsed, R.Parsed, Owned, A.IsDone, R.IsDone, H.Negotiated, Streams, Admitted;
    FlushStreams(c, n);
  }

  lemma MethodSentKeeps(c: Conn, t: Table, g: Globals, id: nat)
    requires ConnInv(c, t, id, g.authOn) && c.phase == HelloWrite && c.wb.bytes == []
    ensures Jumped(Jump(MethodSent(c, t, g, c.clientFd)), t, id) && Jump(MethodSent(c, t, g, c.clientFd)).g == g
  {
    ParsersStart();
    hide H.Parsed, A.Parsed, R.Parsed, Owned, Frame, A.IsDone, R.IsDone, H.Negotiated, Streams, AfterSetInterest;
    InterestOnOwn(c.clientFd, c.originFd, c.references, t, id, c.clientFd, READ);
    StreamsAgree(c, Jump(MethodSent(c, t, g, c.clientFd)).c);
  }

  /** What a connection that does not relay has at any moment, and so at its end. */
  lemma Unrelayed(c: Conn, t: Table, id: nat, authOn: bool)
    requires ConnInv(c, t, id, authOn) && c.phase != Copy && c.phase != RequestConnecting
    ensures c.live && Registered(c, t, id) && Streams(c) && !c.log.copied && ListKept(c)
  {
    hide H.Parsed, A.Parsed, R.Parsed, Owned, A.IsDone, R.IsDone, H.Negotiated, Streams, Admitted, Prelude;
  }

  /** A failed send ends the connection, which keeps what it has. */
  lemma FailureKeeps(c: Conn, t: Table, g: Globals, id: nat)
    requires ConnInv(c, t, id, g.authOn) && c.phase != Copy && c.phase != RequestConnecting && c.phase != Error
    ensures Jumped(Jump(Out(c, t, g, Error)), t, id) && Jump(Out(c, t, g, Error)).g == g
  {
    FrameSelf(t, id);
    Unrelayed(c, t, id, g.authOn);
    hide ConnInv, Owned, Frame, Streams;
    StreamsAgree(c, c.(phase := Error));
  }

  lemma StayKeeps(c: Conn, t: Table, g: Globals, id: nat)
    requires ConnInv(c, t, id, g.authOn)
    ensures Jumped(Jump(Out(c, t, g, c.phase)), t, id) && Jump(Out(c, t, g, c.phase)).g == g
  {
    FrameSelf(t, id);
    hide Registered, Common, Frame;
  }

  lemma HelloWriteKeeps(c: Conn, t: Table, g: Globals, id: nat, io: Io)
    requires ConnInv(c, t, id, g.authOn) && c.phase == HelloWrite
    ensures Jumped(Jump(HelloWriteH(c, t, g, c.clientFd, io)), t, id)
    ensures Jump(HelloWriteH(c, t, g, c.clientFd, io)).g == g
  {
    assert c.client.HelloSt?;
    hide ConnInv, Jumped, Jump, Sent, MethodSent;
    var n := Sent(c.wb, io.send);
    if n < 0 {
      FailureKeeps(c, t, g, id);
    } else {
      HandshakeFlushKeeps(c, t, id, g.authOn, n);
      StayKeeps(Flushed(c, n), t, g, id);
      if !Flushed(c, n).wb.CanRead() {
        MethodSentKeeps(Flushed(c, n), t, g, id);
      }
    }
  }

  // ---------------------------------------------------------------- AUTH

  lemma AuthEats(eaten: seq<byte>, bs: seq<byte>)
    requires !A.IsDone(A.Parsed(A.INIT, eaten).st)
    ensures var r := A.Parsed(A.Parsed(A.INIT, eaten).st, bs); r.st == A.Parsed(A.INIT, eaten + bs[..r.eaten]).st
  {
    ConsumeMore(A.Feeder(), A.IsDone, A.INIT, eaten, bs);
  }

  lemma AuthProcessKeeps(c: Conn, t: Table, g: Globals, id: nat, cred: A.Credentials)
    requires Common(c) && c.phase == AuthRead && Registered(c, t, id) && InterestOf(c.clientFd, t) == WRITE
    requires c.originFd == -1 && c.log.request == [] && c.log.spawns == 0 && c.log.replies == H.Reply(c.log.chosen)
    requires c.resolution == c.log.resolved == [] && c.log.authAtFlush
    requires c.wb.bytes == [] && c.client.AuthSt? && cred == c.client.auth
    requires cred == A.Parsed(A.INIT, c.log.auth).st && A.IsDone(cred)
    ensures Jumped(Jump(AuthProcess(c, t, g, cred)), t, id) && Jump(AuthProcess(c, t, g, cred)).g == g
  {
    FrameSelf(t, id);
    hide H.Parsed, A.Parsed, R.Parsed, Owned, Frame, H.IsDone, R.IsDone, CString;
    Answers(c.log.replies, c.wb, c.log.toClient, A.Reply(A.SUCCEEDED));
    Answers(c.log.replies, c.wb, c.log.toClient, A.Reply(A.FAILURE));
  }

  /** Eating part of the credentials keeps the stream and the parser in step; an unfinished parser eats all. */
  lemma AuthTaken(c: Conn, data: seq<byte>)
    requires c.client.AuthSt? && !A.IsDone(c.client.auth) && c.client.auth == A.Parsed(A.INIT, c.log.auth).st
    requires c.log.request == [] && c.log.toOrigin == []
    requires Carries(c.log.fromClient, c.rb, Spent(c.log)) && 0 < |data| <= c.rb.Space()
    ensures var d := AfterAuth(c, data);
            && d == c.(rb := d.rb, client := c.client.(auth := d.client.auth),
                       log := c.log.(fromClient := d.log.fromClient, auth := d.log.auth))
            && Carries(d.log.fromClient, d.rb, Spent(d.log))
            && d.client.auth == A.Parsed(A.INIT, d.log.auth).st
            && (!A.IsDone(d.client.auth) ==> d.rb.bytes == [])
  {
    hide A.Next, A.IsDone;
    var q := c.rb.Put(data);
    var p := A.Parsed(c.client.auth, q.bytes);
    AuthEats(c.log.auth, q.bytes);
    hide A.Parsed;
    Eats(c.rb, data, p.eaten, Spent(c.log), c.log.fromClient);
    assert Spent(c.log.(auth := c.log.auth + q.bytes[..p.eaten])) == Spent(c.log) + q.bytes[..p.eaten];
  }

  lemma AuthReadKeeps(c: Conn, t: Table, g: Globals, id: nat, io: Io)
    requires ConnInv(c, t, id, g.authOn) && c.phase == AuthRead
    ensures Jumped(Jump(AuthReadH(c, t, g, c.clientFd, io)), t, id)
    ensures Jump(AuthReadH(c, t, g, c.clientFd, io)).g == g
  {
    FrameSelf(t, id);
    hide H.Parsed, A.Parsed, R.Parsed, Owned, Frame, FindUser, AuthProcess, AfterAuth, Spent, A.IsDone;
    var data := Received(c.rb, io.recv);
    if data != [] {
      AuthTaken(c, data);
      var c1 := AfterAuth(c, data);
      InterestOnOwn(c.clientFd, c.originFd, c.references, t, id, c.clientFd, WRITE);
      if A.IsDone(c1.client.auth) {
        var t1 := AfterSetInterest(t, c.clientFd, WRITE).table;
        AuthProcessKeeps(c1, t1, g, id, c1.client.auth);
        FrameChains(t, t1, Jump(AuthProcess(c1, t1, g, c1.client.auth)).t, id);
      }
    }
  }

  lemma VerdictSentKeeps(c: Conn, t: Table, g: Globals, id: nat)
    requires ConnInv(c, t, id, g.authOn) && c.phase == AuthWrite && c.wb.bytes == []
    ensures Jumped(Jump(VerdictSent(c, t, g, c.clientFd)), t, id) && Jump(VerdictSent(c, t, g, c.clientFd)).g == g
  {
    ParsersStart();
    hide H.Parsed, A.Parsed, R.Parsed, Owned, Frame, A.IsDone, R.IsDone, H.Negotiated, Streams, AfterSetInterest;
    InterestOnOwn(c.clientFd, c.originFd, c.references, t, id, c.clientFd, READ);
    InterestOnOwn(c.clientFd, c.originFd, c.references, t, id, c.clientFd, NOOP);
    StreamsAgree(c, Jump(VerdictSent(c, t, g, c.clientFd)).c);
  }

  lemma AuthWriteKeeps(c: Conn, t: Table, g: Globals, id: nat, io: Io)
    requires ConnInv(c, t, id, g.authOn) && c.phase == AuthWrite
    ensures Jumped(Jump(AuthWriteH(c, t, g, c.clientFd, io)), t, id)
    ensures Jump(AuthWriteH(c, t, g, c.clientFd, io)).g == g
  {
    assert c.client.AuthSt?;
    hide ConnInv, Jumped, Jump, Sent, VerdictSent;
    var n := Sent(c.wb, io.send);
    if n < 0 {
      FailureKeeps(c, t, g, id);
    } else {
      HandshakeFlushKeeps(c, t, id, g.authOn, n);
      StayKeeps(Flushed(c, n), t, g, id);
      if !Flushed(c, n).wb.CanRead() {
        VerdictSentKeeps(Flushed(c, n), t, g, id);
      }
    }
  }

  // ---------------------------------------------------------------- REQUEST

  lemma RequestEats(eaten: seq<byte>, bs: seq<byte>)
    requires !R.IsDone(R.Parsed(R.INIT, eaten).st)
    ensures var r := R.Parsed(R.Parsed(R.INIT, eaten).st, bs); r.st == R.Parsed(R.INIT, eaten + bs[..r.eaten]).st
  {
    ConsumeMore(R.Feeder(), R.IsDone, R.INIT, eaten, bs);
  }

  /** A connection whose request is being served and has no origin descriptor yet. */
  ghost predicate Serving(c: Conn, t: Table, id: nat) {
    && c.live && Streams(c) && NotCopying(c.log) && !c.spawned && c.log.spawns == c.log.dispatches <= 1
    && c.resolution == c.log.resolved && (c.phase == RequestRead ==> c.resolution == [])
    && ChosenRight(c.log.authAtHello, c.log.hello, c.log.early, c.log.chosen)
    && (c.phase == RequestRead || c.phase == RequestResolv) && c.originFd == -1 && Registered(c, t, id)
    && c.client.RequestSt? && c.client.req == R.Parsed(R.INIT, c.log.request).st
    && c.client.status == R.GENERAL_FAILURE && Admitted(c.log.gate, c.log.auth, c.log.authAtFlush) && Asked(c.log)
    && c.wb.bytes == [] && c.log.replies == Prelude(c.log.chosen, c.log.gate)
  }

  lemma ErrorWriteKeeps(c: Conn, t: Table, g: Globals, id: nat, status: byte)
    requires Serving(c, t, id) && status != R.SUCCEEDED
    ensures Jumped(Jump(ErrorWrite(c, t, g, status)), t, id) && Jump(ErrorWrite(c, t, g, status)).g == g
  {
    hide H.Parsed, A.Parsed, R.Parsed, Owned, Frame, A.IsDone, R.IsDone;
    Answers(c.log.replies, c.wb, c.log.toClient, R.Reply(status));
    InterestOnOwn(c.clientFd, c.originFd, c.references, t, id, c.clientFd, WRITE);
  }

  lemma AwaitingRegisters(c: Conn, t: Table, g: Globals, id: nat, fd: int)
    requires c.client.RequestSt? && Owned(c.clientFd, -1, c.references, t, id) && !InvalidFd(fd) && fd !in t
    ensures var o := Awaiting(c, t, g, id, fd);
            && o.Out? && o.ret == RequestConnecting && o.g == g && Frame(t, o.t, id)
            && o.c == c.(originFd := fd, references := c.references + 1) && Registered(o.c, o.t, id) && fd != -1
            && InterestOf(fd, o.t) == WRITE && InterestOf(c.clientFd, o.t) == NOOP
  {
    InterestOnOwn(c.clientFd, -1, c.references, t, id, c.clientFd, NOOP);
    var t1 := AfterSetInterest(t, c.clientFd, NOOP).table;
    RegisterOwn(c.clientFd, c.references, t1, id, fd, WRITE);
    FrameChains(t, t1, AfterRegister(t1, fd, WRITE, id).table, id);
    hide Owned, Frame, ErrorWrite;
  }

  /** A descriptor the selector refuses ends in an error reply. */
  lemma AwaitingFails(c: Conn, t: Table, g: Globals, id: nat, fd: int)
    requires Serving(c, t, id) && (InvalidFd(fd) || fd in t)
    ensures Jumped(Jump(Awaiting(c, t, g, id, fd)), t, id) && Jump(Awaiting(c, t, g, id, fd)).g == g
  {
    hide H.Parsed, A.Parsed, R.Parsed, Owned, Frame, A.IsDone, R.IsDone, ErrorWrite, TargetOf;
    InterestOnOwn(c.clientFd, c.originFd, c.references, t, id, c.clientFd, NOOP);
    var t1 := AfterSetInterest(t, c.clientFd, NOOP).table;
    ErrorWriteKeeps(c, t1, g, id, c.client.status);
    FrameChains(t, t1, Jump(ErrorWrite(c, t1, g, c.client.status)).t, id);
  }

  lemma RequestConnectKeeps(c: Conn, t: Table, g: Globals, id: nat, io: Io)
    requires Serving(c, t, id) && CompleteConnect(c) && Aimed(c)
    requires if c.client.req.atyp == R.DOMAIN then c.tried < |c.resolution| && c.target == c.resolution[c.tried]
             else c.resolution == []
    ensures Jumped(Jump(RequestConnect(c, t, g, id, io)), t, id) && Jump(RequestConnect(c, t, g, id, io)).g == g
  {
    hide H.Parsed, A.Parsed, R.Parsed, Owned, Frame, A.IsDone, R.IsDone, ErrorWrite, TargetOf, Awaiting;
    match io.connect {
      case NoSocket =>
        ErrorWriteKeeps(c, t, g, id, R.GENERAL_FAILURE);
      case Refused(e) =>
        ErrorWriteKeeps(c, t, g, id, R.ErrnoToSocks(e));
      case InProgress(fd) =>
        if InvalidFd(fd) || fd in t {
          AwaitingFails(c, t, g, id, fd);
        } else {
          AwaitingRegisters(c, t, g, id, fd);
        }
    }
  }

  /** The thread exists and request_process has not returned. */
  lemma SpawnKeeps(c: Conn, t: Table, id: nat, authOn: bool)
    requires Serving(c, t, id) && c.phase == RequestRead && CompleteConnect(c) && c.client.req.atyp == R.DOMAIN
    requires c.log.spawns == 0 && InterestOf(c.clientFd, t) == READ
    ensures ConnInv(c.(spawned := true, log := c.log.(spawns := 1)), t, id, authOn)
  {
    hide H.Parsed, A.Parsed, R.Parsed, Owned, A.IsDone, R.IsDone, TargetOf, Prelude;
  }

  lemma RequestProcessKeeps(c: Conn, t: Table, g: Globals, id: nat, io: Io)
    requires Serving(c, t, id) && c.phase == RequestRead && c.client.req.state == R.Done && c.log.spawns == 0
    requires InterestOf(c.clientFd, t) == READ
    ensures Jumped(Jump(RequestProcess(c, t, g, id, io)), t, id) && Jump(RequestProcess(c, t, g, id, io)).g == g
  {
    hide H.Parsed, A.Parsed, R.Parsed, Owned, Frame, A.IsDone, R.IsDone, ErrorWrite, RequestConnect, TargetOf, ConnInv;
    var r := c.client.req;
    if r.cmd != R.CONNECT {
      ErrorWriteKeeps(c, t, g, id, R.COMMAND_NOT_SUPPORTED);
    } else if r.atyp == R.IPV4 || r.atyp == R.IPV6 {
      RequestConnectKeeps(c.(target := TargetOf(r)), t, g, id, io);
    } else if r.atyp != R.DOMAIN {
      ErrorWriteKeeps(c, t, g, id, R.ADDRESS_NOT_SUPPORTED);
    } else if !io.memory {
      ErrorWriteKeeps(c, t, g, id, R.GENERAL_FAILURE);
    } else {
      FrameSelf(t, id);
      SpawnKeeps(c, t, id, g.authOn);
    }
  }

  lemma RequestTaken(c: Conn, data: seq<byte>)
    requires c.client.RequestSt? && !R.IsDone(c.client.req) && c.client.req == R.Parsed(R.INIT, c.log.request).st
    requires c.log.toOrigin == [] && Carries(c.log.fromClient, c.rb, Spent(c.log)) && 0 < |data| <= c.rb.Space()
    ensures var d := AfterRequest(c, data);
            && d == c.(rb := d.rb, client := c.client.(req := d.client.req),
                       log := c.log.(fromClient := d.log.fromClient, request := d.log.request))
            && Carries(d.log.fromClient, d.rb, Spent(d.log))
            && d.client.req == R.Parsed(R.INIT, d.log.request).st
            && (!R.IsDone(d.client.req) ==> d.rb.bytes == [])
  {
    hide R.Next, R.IsDone;
    var q := c.rb.Put(data);
    var p := R.Parsed(c.client.req, q.bytes);
    RequestEats(c.log.request, q.bytes);
    hide R.Parsed;
    Eats(c.rb, data, p.eaten, Spent(c.log), c.log.fromClient);
    assert Spent(c.log.(request := c.log.request + q.bytes[..p.eaten])) == Spent(c.log) + q.bytes[..p.eaten];
  }

  /** A request that has just become complete is ready to be served. */
  lemma RequestServes(c: Conn, t: Table, id: nat, authOn: bool, data: seq<byte>)
    requires ConnInv(c, t, id, authOn) && c.phase == RequestRead && !c.spawned && 0 < |data| <= c.rb.Space()
    requires AfterRequest(c, data).client.RequestSt?
    ensures Serving(AfterRequest(c, data), t, id)
    ensures AfterRequest(c, data).phase == RequestRead && AfterRequest(c, data).log.spawns == 0
  {
    hide H.Parsed, A.Parsed, R.Parsed, H.Negotiated, Owned, AfterRequest, Spent, Admitted, ChosenRight;
    RequestTaken(c, data);
  }

  lemma RequestReadKeeps(c: Conn, t: Table, g: Globals, id: nat, io: Io)
    requires ConnInv(c, t, id, g.authOn) && c.phase == RequestRead && !c.spawned
    ensures Jumped(Jump(RequestReadH(c, t, g, id, io)), t, id)
    ensures Jump(RequestReadH(c, t, g, id, io)).g == g
  {
    FrameSelf(t, id);
    hide H.Parsed, A.Parsed, R.Parsed, Owned, Frame, RequestProcess, AfterRequest, Spent;
    var data := Received(c.rb, io.recv);
    if data != [] {
      RequestTaken(c, data);
      var c1 := AfterRequest(c, data);
      if R.IsDone(c1.client.req) && !R.Errored(c1.client.req) {
        RequestProcessKeeps(c1, t, g, id, io);
      }
    }
  }

  lemma FinishSpawnKeeps(c: Conn, t: Table, g: Globals, id: nat)
    requires ConnInv(c, t, id, g.authOn) && c.spawned
    ensures Jumped(FinishSpawn(c, t, g), t, id) && FinishSpawn(c, t, g).g == g
    ensures FinishSpawn(c, t, g).ret == RequestResolv
  {
    hide H.Parsed, A.Parsed, R.Parsed, Owned, Frame, A.IsDone, R.IsDone;
    InterestOnOwn(c.clientFd, c.originFd, c.references, t, id, c.clientFd, NOOP);
  }

  lemma ResolvDoneKeeps(c: Conn, t: Table, g: Globals, id: nat, io: Io)
    requires ConnInv(c, t, id, g.authOn) && c.phase == RequestResolv
    ensures Jumped(Jump(ResolvDoneH(c, t, g, id, io)), t, id) && Jump(ResolvDoneH(c, t, g, id, io)).g == g
  {
    hide H.Parsed, A.Parsed, R.Parsed, Owned, Frame, A.IsDone, R.IsDone, ErrorWrite, RequestConnect, TargetOf;
    var c1 := Dispatched(c);
    ErrorWriteKeeps(c1, t, g, id, R.HOST_UNREACHABLE);
    if c.resolution != [] {
      RequestConnectKeeps(c1.(tried := 0, target := c.resolution[0]), t, g, id, io);
    }
  }

  lemma ConnectedKeeps(c: Conn, t: Table, g: Globals, id: nat, status: byte)
    requires ConnInv(c, t, id, g.authOn) && c.phase == RequestConnecting
    ensures Jumped(Jump(Connected(c, t, g, c.originFd, status)), t, id)
    ensures Jump(Connected(c, t, g, c.originFd, status)).g == g
  {
    hide H.Parsed, A.Parsed, R.Parsed, Owned, Frame, A.IsDone, R.IsDone, TargetOf, Streams, H.Negotiated;
    hide R.Reply, AfterSetInterest;
    BufferOk(c);
    AnswerStreams(c, status);
    StreamsAgree(Answering(c, status), Jump(Connected(c, t, g, c.originFd, status)).c);
    InterestOnOwn(c.clientFd, c.originFd, c.references, t, id, c.clientFd, WRITE);
    var t1 := AfterSetInterest(t, c.clientFd, WRITE).table;
    InterestOnOwn(c.clientFd, c.originFd, c.references, t1, id, c.originFd, NOOP);
    FrameChains(t, t1, AfterSetInterest(t1, c.originFd, NOOP).table, id);
    OwnedDistinct(c.clientFd, c.originFd, c.references, t, id);
  }

  lemma OwnedDistinct(clientFd: int, originFd: int, references: nat, t: Table, id: nat)
    requires Owned(clientFd, originFd, references, t, id)
    ensures clientFd != originFd && clientFd != -1
  {
  }

  /** Closing the previous origin leaves one descriptor and one reference. */
  lemma Drops(c: Conn, t: Table, id: nat)
    requires Registered(c, t, id) && c.originFd != -1
    ensures var (d, u) := DropOrigin(c, t);
            && d == c.(references := 1) && Owned(c.clientFd, -1, 1, u, id) && Frame(t, u, id)
            && u == t - {c.originFd}
  {
    TwoReferences(c.clientFd, c.originFd, c.references, t, id);
    UnregisterOrigin(c.clientFd, c.originFd, c.references, t, id);
    hide Owned, Frame;
  }

  /** What a retry that gets its descriptor changes of the connection. */
  ghost predicate Retried(c: Conn, d: Conn, t: Table, id: nat, fd: int) {
    && c.tried + 1 < |c.resolution| && fd != -1
    && d == c.(tried := c.tried + 1, target := c.resolution[c.tried + 1], originFd := fd, references := 2)
    && Owned(c.clientFd, fd, 2, t, id) && InterestOf(fd, t) == WRITE && InterestOf(c.clientFd, t) == NOOP
  }

  lemma RetryGets(c: Conn, t: Table, g: Globals, id: nat, io: Io)
    requires Registered(c, t, id) && c.originFd != -1 && c.live && c.phase == RequestConnecting
    requires WillRetry(c, io) && RetryReaches(c, t, io)
    ensures var o := Retry(c, t, g, id, io);
            && o.Out? && Frame(t, o.t, id) && o.g == g && o.ret == RequestConnecting
            && Retried(c, o.c, o.t, id, io.connect.fd)
  {
    hide Owned, Frame, Awaiting, DropOrigin;
    var k := c.tried + 1;
    var c0 := c.(tried := k, target := c.resolution[k]);
    Drops(c0, t, id);
    var (d, u) := DropOrigin(c0, t);
    AwaitingRegisters(d, u, g, id, io.connect.fd);
    FrameChains(t, u, Awaiting(d, u, g, id, io.connect.fd).t, id);
  }

  lemma RetriedKeeps(c: Conn, t: Table, d: Conn, t': Table, id: nat, authOn: bool, fd: int)
    requires ConnInv(c, t, id, authOn) && c.phase == RequestConnecting && c.client.req.atyp == R.DOMAIN
    requires Retried(c, d, t', id, fd)
    ensures ConnInv(d, t', id, authOn)
  {
    hide H.Negotiated, H.Parsed, A.Parsed, R.Parsed, Owned, A.IsDone, R.IsDone, TargetOf, Prelude, Streams, Admitted;
    assert Streams(d) by { SameStreams(c, d); }
  }

  lemma SameStreams(c: Conn, d: Conn)
    requires Streams(c) && d.log == c.log && d.rb == c.rb && d.wb == c.wb
    ensures Streams(d)
  {
    hide Carries, Spent;
  }

  lemma RetryKeeps(c: Conn, t: Table, g: Globals, id: nat, io: Io)
    requires ConnInv(c, t, id, g.authOn) && c.phase == RequestConnecting && WillRetry(c, io) && RetryReaches(c, t, io)
    ensures Jumped(Jump(Retry(c, t, g, id, io)), t, id) && Jump(Retry(c, t, g, id, io)).g == g
  {
    assert Registered(c, t, id) && c.originFd != -1 && c.live;
    hide ConnInv, Registered, Frame, Retry, RetryReaches;
    RetryGets(c, t, g, id, io);
    var o := Retry(c, t, g, id, io);
    RetriedKeeps(c, t, o.c, o.t, id, g.authOn, io.connect.fd);
  }

  lemma TwoReferences(clientFd: int, originFd: int, references: nat, t: Table, id: nat)
    requires Owned(clientFd, originFd, references, t, id) && originFd != -1
    ensures references == 2 && clientFd in t && originFd in t && clientFd != originFd
  {
  }

  /**
   * When the retry gets no descriptor the connection is left in REQUEST_CONNECTING with the client
   * waiting for writability and no origin: the invariant is lost, whatever the reason for the failure.
   */
  lemma RetryFailureBreaks(c: Conn, t: Table, g: Globals, id: nat, io: Io)
    requires ConnInv(c, t, id, g.authOn) && c.phase == RequestConnecting && WillRetry(c, io) && !RetryReaches(c, t, io)
    ensures var o := Jump(Retry(c, t, g, id, io));
            && o.Out? && o.ret == o.c.phase == RequestConnecting && o.c.live && o.c.originFd == -1
            && InterestOf(o.c.clientFd, o.t) == WRITE
            && o.g == g && !ConnInv(o.c, o.t, id, g.authOn)
  {
    hide H.Parsed, A.Parsed, R.Parsed, Frame, A.IsDone, R.IsDone, TargetOf;
    TwoReferences(c.clientFd, c.originFd, c.references, t, id);
    var t0 := AfterUnregister(t, c.originFd).table;
    assert AfterUnregister(t, c.originFd).status == SUCCESS;
    assert AfterSetInterest(t0, c.clientFd, NOOP).status == SUCCESS;
    assert c.wb.Space() == RAW_BUFFER_SIZE;
  }

  /** Exactly when a retry leaves a good connection behind. */
  lemma RetryIffReaches(c: Conn, t: Table, g: Globals, id: nat, io: Io)
    requires ConnInv(c, t, id, g.authOn) && c.phase == RequestConnecting && WillRetry(c, io)
    ensures Jumped(Jump(Retry(c, t, g, id, io)), t, id) <==> RetryReaches(c, t, io)
  {
    hide ConnInv, Jump, Retry, WillRetry, RetryReaches;
    if RetryReaches(c, t, io) {
      RetryKeeps(c, t, g, id, io);
    } else {
      RetryFailureBreaks(c, t, g, id, io);
    }
  }

  lemma ConnectingKeeps(c: Conn, t: Table, g: Globals, id: nat, io: Io)
    requires ConnInv(c, t, id, g.authOn) && c.phase == RequestConnecting
    requires WillRetry(c, io) ==> RetryReaches(c, t, io)
    ensures var o := Jump(ConnectingH(c, t, g, id, c.originFd, io)); Jumped(o, t, id) && o.g == g
  {
    hide H.Parsed, A.Parsed, R.Parsed, Owned, Frame, A.IsDone, R.IsDone, TargetOf, Connected, Retry;
    if WillRetry(c, io) {
      RetryKeeps(c, t, g, id, io);
    } else {
      ConnectedKeeps(c, t, g, id, R.GENERAL_FAILURE);
      if io.sockopt.SoError? {
        ConnectedKeeps(c, t, g, id, R.ErrnoToSocks(io.sockopt.e));
      }
    }
  }

  /** Sending part of the reply leaves the connection as good as it was. */
  lemma FlushKeeps(c: Conn, t: Table, id: nat, authOn: bool, n: nat)
    requires ConnInv(c, t, id, authOn) && c.phase == RequestWrite && n <= |c.wb.bytes|
    ensures ConnInv(Flushed(c, n), t, id, authOn)
  {
    hide H.Parsed, A.Parsed, R.Parsed, Owned, A.IsDone, R.IsDone, TargetOf, Prelude, Admitted;
    Sends(c.log.replies + c.log.fromOrigin, c.wb, c.log.toClient, n);
  }

  lemma InterestOnBoth(c: Conn, t: Table, id: nat, i: Interest)
    requires Registered(c, t, id) && c.originFd != -1
    ensures var t1 := AfterSetInterest(t, c.clientFd, i).table;
            var t2 := AfterSetInterest(t1, c.originFd, i).table;
            && Registered(c, t2, id) && Frame(t, t2, id) && Registered(c, t1, id) && Frame(t, t1, id)
            && InterestOf(c.clientFd, t2) == i && InterestOf(c.originFd, t2) == i
  {
    OwnedDistinct(c.clientFd, c.originFd, c.references, t, id);
    InterestOnOwn(c.clientFd, c.originFd, c.references, t, id, c.clientFd, i);
    var t1 := AfterSetInterest(t, c.clientFd, i).table;
    InterestOnOwn(c.clientFd, c.originFd, c.references, t1, id, c.originFd, i);
    FrameChains(t, t1, AfterSetInterest(t1, c.originFd, i).table, id);
    hide Owned, Frame, AfterSetInterest;
  }

  lemma RepliedKeeps(c: Conn, t: Table, g: Globals, id: nat)
    requires ConnInv(c, t, id, g.authOn) && c.phase == RequestWrite && c.wb.bytes == []
    ensures var o := Jump(Replied(c, t, g));
            && Jumped(o, t, id)
            && o.g == if o.ret == Copy
                      then g.(historic := (g.historic + 1) % U32, current := (g.current + 1) % U32) else g
  {
    hide H.Parsed, A.Parsed, R.Parsed, Owned, Frame, A.IsDone, R.IsDone, TargetOf, AfterSetInterest;
    assert c.log.toClient == c.log.replies + c.log.fromOrigin;
    if c.originFd != -1 {
      InterestOnBoth(c, t, id, if c.client.status == R.SUCCEEDED then READ else NOOP);
    } else {
      InterestOnOwn(c.clientFd, c.originFd, c.references, t, id, c.clientFd, NOOP);
    }
  }

  lemma RequestWriteKeeps(c: Conn, t: Table, g: Globals, id: nat, io: Io)
    requires ConnInv(c, t, id, g.authOn) && c.phase == RequestWrite
    ensures var o := Jump(RequestWriteH(c, t, g, io));
            && Jumped(o, t, id)
            && o.g == if o.ret == Copy
                      then g.(historic := (g.historic + 1) % U32, current := (g.current + 1) % U32) else g
  {
    FrameSelf(t, id);
    assert c.client.RequestSt? && c.live && Registered(c, t, id);
    hide ConnInv, Frame, Replied, Sent, Registered;
    var n := Sent(c.wb, io.send);
    if n >= 0 {
      FlushKeeps(c, t, id, g.authOn, n);
      if !Flushed(c, n).wb.CanRead() {
        RepliedKeeps(Flushed(c, n), t, g, id);
      }
    }
  }

  // ---------------------------------------------------------------- COPY

  /** What both copy handlers establish before the interests are recomputed. */
  ghost predicate Relaying(c: Conn, t: Table, id: nat) {
    && c.phase == Copy && Common(c) && Registered(c, t, id) && c.originFd != -1 && c.log.touched
    && c.log.copied && Admitted(c.log.gate, c.log.auth, c.log.authAtFlush) && Asked(c.log) && Aimed(c)
    && c.log.replies == Prelude(c.log.chosen, c.log.gate) + R.Reply(R.SUCCEEDED) && c.log.replies <= c.log.toClient
    && c.resolution == [] && Mirrored(c)
  }

  lemma CopyEndKeeps(c: Conn, t: Table, g: Globals, id: nat, mine: Interest)
    requires Relaying(c, t, id) && (mine == c.client.cDuplex || mine == c.origin.oDuplex)
    ensures var o := Jump(CopyEnd(c, t, g, mine));
            && Jumped(o, t, id) && o.Out? && (o.ret == Copy || o.ret == Done)
            && o.c == c.(phase := o.ret)
            && o.g == if o.ret == Done then g.(current := (g.current + U32 - 1) % U32) else g
  {
    hide H.Parsed, A.Parsed, R.Parsed, Owned, Frame, A.IsDone, R.IsDone, TargetOf, Prelude;
    OwnedDistinct(c.clientFd, c.originFd, c.references, t, id);
    InterestOnOwn(c.clientFd, c.originFd, c.references, t, id, c.clientFd, ClientWants(c));
    var t1 := AfterSetInterest(t, c.clientFd, ClientWants(c)).table;
    InterestOnOwn(c.clientFd, c.originFd, c.references, t1, id, c.originFd, OriginWants(c));
    FrameChains(t, t1, AfterSetInterest(t1, c.originFd, OriginWants(c)).table, id);
  }

  lemma Receives(inn: seq<byte>, q: Queue, out: seq<byte>, data: seq<byte>)
    requires Carries(inn, q, out) && 0 < |data| <= q.Space()
    ensures Carries(inn + data, q.Put(data), out)
  {
    assert out + (q.bytes + data) == (out + q.bytes) + data;
  }

  lemma ClientReadRelays(c: Conn, t: Table, id: nat, authOn: bool, data: seq<byte>)
    requires ConnInv(c, t, id, authOn) && c.phase == Copy && |data| <= c.rb.Space()
    ensures Relaying(CopyReadClient(c, data), t, id)
  {
    hide H.Negotiated, H.Parsed, A.Parsed, R.Parsed, Owned, A.IsDone, R.IsDone, TargetOf, Prelude;
    if data != [] {
      Receives(c.log.fromClient, c.rb, Spent(c.log), data);
    }
  }

  lemma OriginReadRelays(c: Conn, t: Table, id: nat, authOn: bool, data: seq<byte>)
    requires ConnInv(c, t, id, authOn) && c.phase == Copy && |data| <= c.wb.Space()
    ensures Relaying(CopyReadOrigin(c, data), t, id)
  {
    hide H.Negotiated, H.Parsed, A.Parsed, R.Parsed, Owned, A.IsDone, R.IsDone, TargetOf, Prelude;
    if data != [] {
      Receives(c.log.replies + c.log.fromOrigin, c.wb, c.log.toClient, data);
      assert (c.log.replies + c.log.fromOrigin) + data == c.log.replies + (c.log.fromOrigin + data);
    }
  }

  lemma ReceivedFits(q: Queue, offered: seq<byte>)
    requires q.Valid()
    ensures |Received(q, offered)| <= q.Space()
  {
  }

  lemma CopyReadRelays(c: Conn, t: Table, id: nat, authOn: bool, io: Io)
    requires ConnInv(c, t, id, authOn) && c.phase == Copy
    ensures Relaying(CopyReadClient(c, Received(c.rb, io.recv)), t, id)
    ensures Relaying(CopyReadOrigin(c, Received(c.wb, io.recv)), t, id)
  {
    assert c.rb.Valid() && c.wb.Valid() && c.client.ClientCopy? && c.origin.OriginCopy?;
    hide ConnInv, Received, Relaying;
    ReceivedFits(c.rb, io.recv);
    ReceivedFits(c.wb, io.recv);
    ClientReadRelays(c, t, id, authOn, Received(c.rb, io.recv));
    OriginReadRelays(c, t, id, authOn, Received(c.wb, io.recv));
  }

  lemma ClientWriteRelays(c: Conn, t: Table, id: nat, authOn: bool, n: int)
    requires ConnInv(c, t, id, authOn) && c.phase == Copy && n <= |c.wb.bytes|
    ensures Relaying(CopyWriteClient(c, n), t, id)
  {
    hide H.Negotiated, H.Parsed, A.Parsed, R.Parsed, Owned, A.IsDone, R.IsDone, TargetOf, Prelude;
    if n >= 0 {
      Sends(c.log.replies + c.log.fromOrigin, c.wb, c.log.toClient, n);
    }
  }

  lemma OriginWriteRelays(c: Conn, t: Table, id: nat, authOn: bool, n: int)
    requires ConnInv(c, t, id, authOn) && c.phase == Copy && n <= |c.rb.bytes|
    ensures Relaying(CopyWriteOrigin(c, n), t, id)
  {
    hide H.Negotiated, H.Parsed, A.Parsed, R.Parsed, Owned, A.IsDone, R.IsDone, TargetOf, Prelude, Streams;
    if n < 0 {
      StreamsAgree(c, CopyWriteOrigin(c, n));
    } else {
      DeliverStreams(c, n);
    }
  }

  lemma DeliverStreams(c: Conn, n: nat)
    requires Streams(c) && n <= |c.rb.bytes|
    ensures var l := c.log.(touched := true, toOrigin := c.log.toOrigin + c.rb.bytes[..n]);
            Streams(c.(rb := c.rb.Take(n), log := l))
  {
    Sends(c.log.fromClient, c.rb, Spent(c.log), n);
    var l := c.log.(touched := true, toOrigin := c.log.toOrigin + c.rb.bytes[..n]);
    assert Spent(l) == Spent(c.log) + c.rb.bytes[..n];
  }

  lemma CopyWriteRelays(c: Conn, t: Table, id: nat, authOn: bool, io: Io)
    requires ConnInv(c, t, id, authOn) && c.phase == Copy
    ensures Relaying(CopyWriteClient(c, Sent(c.wb, io.send)), t, id)
    ensures Relaying(CopyWriteOrigin(c, Sent(c.rb, io.send)), t, id)
  {
    assert c.client.ClientCopy? && c.origin.OriginCopy?;
    hide ConnInv, Sent, Relaying;
    ClientWriteRelays(c, t, id, authOn, Sent(c.wb, io.send));
    OriginWriteRelays(c, t, id, authOn, Sent(c.rb, io.send));
  }

  lemma CopyReadKeeps(c: Conn, t: Table, g: Globals, id: nat, fd: int, io: Io)
    requires ConnInv(c, t, id, g.authOn) && c.phase == Copy && (fd == c.clientFd || fd == c.originFd)
    ensures var o := Jump(CopyReadH(c, t, g, fd, io));
            && Jumped(o, t, id) && o.Out? && (o.ret == Copy || o.ret == Done)
            && o.g == if o.ret == Done then g.(current := (g.current + U32 - 1) % U32) else g
  {
    hide H.Parsed, A.Parsed, R.Parsed, Owned, Common, Aimed, Admitted, Jumped, Jump, Received, CopyReadH;
    CopyReadRelays(c, t, id, g.authOn, io);
    CopyReadEnds(c, t, g, id, fd, io);
  }

  lemma CopyReadEnds(c: Conn, t: Table, g: Globals, id: nat, fd: int, io: Io)
    requires c.client.ClientCopy? && c.origin.OriginCopy? && (fd == c.clientFd || fd == c.originFd)
    requires Relaying(CopyReadClient(c, Received(c.rb, io.recv)), t, id)
    requires Relaying(CopyReadOrigin(c, Received(c.wb, io.recv)), t, id)
    ensures var o := Jump(CopyReadH(c, t, g, fd, io));
            && Jumped(o, t, id) && o.Out? && (o.ret == Copy || o.ret == Done)
            && o.g == if o.ret == Done then g.(current := (g.current + U32 - 1) % U32) else g
  {
    hide Jumped, Jump, CopyEnd, Received, Common, Registered, Aimed, Admitted, Relaying;
    if fd == c.clientFd {
      var c1 := CopyReadClient(c, Received(c.rb, io.recv));
      CopyEndKeeps(c1, t, g, id, c1.client.cDuplex);
    } else {
      var c1 := CopyReadOrigin(c, Received(c.wb, io.recv));
      CopyEndKeeps(c1, t, g, id, c1.origin.oDuplex);
    }
  }

  lemma CopyWriteKeeps(c: Conn, t: Table, g: Globals, id: nat, fd: int, io: Io)
    requires ConnInv(c, t, id, g.authOn) && c.phase == Copy && (fd == c.clientFd || fd == c.originFd)
    ensures var o := Jump(CopyWriteH(c, t, g, fd, io));
            var g1 := Counted(g, Sent(if fd == c.clientFd then c.wb else c.rb, io.send));
            && Jumped(o, t, id) && o.Out? && (o.ret == Copy || o.ret == Done)
            && o.g == if o.ret == Done then g1.(current := (g1.current + U32 - 1) % U32) else g1
  {
    hide H.Parsed, A.Parsed, R.Parsed, Owned, Common, Aimed, Admitted, Jumped, Jump, Sent, Counted, CopyWriteH;
    CopyWriteRelays(c, t, id, g.authOn, io);
    CopyWriteEnds(c, t, g, id, fd, io);
  }

  lemma CopyWriteEnds(c: Conn, t: Table, g: Globals, id: nat, fd: int, io: Io)
    requires c.client.ClientCopy? && c.origin.OriginCopy? && (fd == c.clientFd || fd == c.originFd)
    requires Relaying(CopyWriteClient(c, Sent(c.wb, io.send)), t, id)
    requires Relaying(CopyWriteOrigin(c, Sent(c.rb, io.send)), t, id)
    ensures var o := Jump(CopyWriteH(c, t, g, fd, io));
            var g1 := Counted(g, Sent(if fd == c.clientFd then c.wb else c.rb, io.send));
            && Jumped(o, t, id) && o.Out? && (o.ret == Copy || o.ret == Done)
            && o.g == if o.ret == Done then g1.(current := (g1.current + U32 - 1) % U32) else g1
  {
    hide Jumped, Jump, CopyEnd, Counted, Sent, Common, Registered, Aimed, Admitted, Relaying;
    if fd == c.clientFd {
      var n := Sent(c.wb, io.send);
      var c1 := CopyWriteClient(c, n);
      CopyEndKeeps(c1, t, Counted(g, n), id, c1.client.cDuplex);
    } else {
      var n := Sent(c.rb, io.send);
      var c1 := CopyWriteOrigin(c, n);
      CopyEndKeeps(c1, t, Counted(g, n), id, c1.origin.oDuplex);
    }
  }

  // ---------------------------------------------------------------- the engine

  /** A terminal state gives back both descriptors, and with the last one the object. */
  lemma SettleReleases(o: Out, id: nat)
    requires o.Out? && (o.ret == Done || o.ret == Error) && o.c.live && Registered(o.c, o.t, id)
    ensures var s := Settle(o);
            && s.Out? && Frame(o.t, s.t, id) && s.g == o.g && s.ret == o.ret
            && !s.c.live && s.c == o.c.(live := false, references := 1)
            && forall fd :: fd in s.t ==> s.t[fd].data != id
  {
    var c, t := o.c, o.t;
    if c.originFd != -1 {
      TwoReferences(c.clientFd, c.originFd, c.references, t, id);
    }
  }
}
