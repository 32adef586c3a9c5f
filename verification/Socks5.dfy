/**
 * The handlers of socks5nio.c and the engine of stm.c as they are: methods that update a connection
 * with its two buffers, the selector and the process-wide variables. Each is proved to do what the
 * function of the same name in `Session` says.
 */
module Socks5 {
  import opened Bytes
  import opened Buffers
  import opened Selector
  import opened Session
  import H = Hello
  import A = Auth
  import R = Request

  /** recv into the free space behind the write pointer; the bytes that arrived. */
  method Recv(b: Buffer, offered: seq<byte>) returns (data: seq<byte>)
    requires b.Valid()
    modifies b, b.data
    ensures b.Valid() && data == Received(old(b.View()), offered)
    ensures b.View() == old(b.View()).Put(data)
  {
    var n := b.limit - b.write;
    data := if |offered| <= n then offered else offered[..n];
    b.Fill(data);
    b.WriteAdv(|data|);
  }

  /** send from the read pointer, then buffer_read_adv; -1 when it fails. */
  method Send(b: Buffer, willing: int) returns (n: int)
    requires b.Valid()
    modifies b, b.data
    ensures b.Valid() && n == Sent(old(b.View()), willing)
    ensures b.View() == if n < 0 then old(b.View()) else old(b.View()).Take(n)
  {
    var size := b.write - b.read;
    n := if willing < 0 then -1 else if willing <= size then willing else size;
    b.ReadAdv(n);
  }

  /** hello_consume, auth_consume and request_consume on the parser a union holds. */
  method ConsumeHello(b: Buffer, authOn: bool, p: H.Negotiation) returns (r: H.Negotiation)
    requires b.Valid()
    modifies b, b.data
    ensures b.Valid()
    ensures var e := H.Parsed(authOn, p, old(b.View()).bytes); r == e.st && b.View() == old(b.View()).Take(e.eaten)
  {
    var parser := new H.HelloParser.At(p);
    var _ := parser.Consume(authOn, b);
    r := parser.View();
  }

  method ConsumeAuth(b: Buffer, p: A.Credentials) returns (r: A.Credentials)
    requires b.Valid() && p.Valid()
    modifies b, b.data
    ensures b.Valid() && r.Valid()
    ensures var e := A.Parsed(p, old(b.View()).bytes); r == e.st && b.View() == old(b.View()).Take(e.eaten)
  {
    var parser := new A.AuthParser.At(p);
    var _ := parser.Consume(b);
    r := parser.View();
  }

  method ConsumeRequest(b: Buffer, p: R.Req) returns (r: R.Req)
    requires b.Valid() && p.Valid()
    modifies b, b.data
    ensures b.Valid() && r.Valid()
    ensures var e := R.Parsed(p, old(b.View()).bytes); r == e.st && b.View() == old(b.View()).Take(e.eaten)
  {
    var parser := new R.RequestParser.At(p);
    var _ := parser.Consume(b);
    r := parser.View();
  }

  /** struct socks5 */
  class Connection {
    const rb: Buffer
    const wb: Buffer
    var live: bool
    var obj: nat
    var references: nat
    var clientFd: int
    var originFd: int
    var phase: Phase
    var client: ClientData
    var origin: OriginData
    var resolution: seq<Addr>
    var tried: nat
    var target: Addr
    var spawned: bool
    ghost var log: Log

    ghost predicate Valid()
      reads this, rb, wb
    {
      && rb != wb && rb.data != wb.data && rb.Valid() && wb.Valid()
      && (client.AuthSt? ==> client.auth.Valid()) && (client.RequestSt? ==> client.req.Valid())
    }

    ghost function View(): Conn
      reads this, rb, wb, rb.data, wb.data
      requires Valid()
    {
      Conn(live, obj, references, clientFd, originFd, phase, client, origin, rb.View(), wb.View(),
           resolution, tried, target, spawned, log)
    }

    constructor (o: nat, fd: int)
      ensures Valid() && View() == NewConn(o, fd) && fresh(rb) && fresh(wb) && fresh(rb.data) && fresh(wb.data)
    {
      var rawA, rawB := new byte[RAW_BUFFER_SIZE](_ => 0), new byte[RAW_BUFFER_SIZE](_ => 0);
      rb := new Buffer(RAW_BUFFER_SIZE, rawA);
      wb := new Buffer(RAW_BUFFER_SIZE, rawB);
      live, obj, references, clientFd, originFd := true, o, 1, fd, -1;
      phase, client, origin := Fresh, NoClient, NoOrigin;
      resolution, tried, target, spawned, log := [], 0, NoAddr, false, EMPTY_LOG;
    }

    /** recv and hello_consume. */
    method TakeHello(authOn: bool, io: Io) returns (data: seq<byte>)
      requires Valid() && client.HelloSt?
      modifies this, rb, rb.data
      ensures Valid() && data == Received(old(View()).rb, io.recv)
      ensures View() == if data == [] then old(View()) else AfterHello(old(View()), authOn, data)
    {
      hide H.Parsed, Received, AfterHello, Queue.Put, Queue.Take;
      ghost var c := View();
      data := Recv(rb, io.recv);
      if data == [] {
        PutNothing(c.rb);
        return;
      }
      var p := ConsumeHello(rb, authOn, client.hello);
      client := HelloSt(p);
      log := AfterHello(c, authOn, data).log;
      AfterHelloIs(c, authOn, data);
      assert View() == c.(rb := rb.View(), client := client, log := log);
    }

    method TakeAuth(io: Io) returns (data: seq<byte>)
      requires Valid() && client.AuthSt?
      modifies this, rb, rb.data
      ensures Valid() && data == Received(old(View()).rb, io.recv)
      ensures View() == if data == [] then old(View()) else AfterAuth(old(View()), data)
    {
      hide A.Parsed, Received, AfterAuth, Queue.Put, Queue.Take;
      ghost var c := View();
      data := Recv(rb, io.recv);
      if data == [] {
        PutNothing(c.rb);
        return;
      }
      var p := ConsumeAuth(rb, client.auth);
      client := client.(auth := p);
      log := AfterAuth(c, data).log;
      AfterAuthIs(c, data);
      assert View() == c.(rb := rb.View(), client := client, log := log);
    }

    method TakeRequest(io: Io) returns (data: seq<byte>)
      requires Valid() && client.RequestSt?
      modifies this, rb, rb.data
      ensures Valid() && data == Received(old(View()).rb, io.recv)
      ensures View() == if data == [] then old(View()) else AfterRequest(old(View()), data)
    {
      hide R.Parsed, Received, AfterRequest, Queue.Put, Queue.Take;
      ghost var c := View();
      data := Recv(rb, io.recv);
      if data == [] {
        PutNothing(c.rb);
        return;
      }
      var p := ConsumeRequest(rb, client.req);
      client := client.(req := p);
      log := AfterRequest(c, data).log;
      AfterRequestIs(c, data);
      assert View() == c.(rb := rb.View(), client := client, log := log);
    }

    /** send and buffer_read_adv of a reply. */
    method Flush(io: Io) returns (n: int)
      requires Valid()
      modifies this, wb, wb.data
      ensures Valid() && n == Sent(old(View()).wb, io.send)
      ensures View() == if n < 0 then old(View()) else Flushed(old(View()), n)
    {
      ghost var q := wb.View();
      n := Send(wb, io.send);
      if n >= 0 {
        log := log.(toClient := log.toClient + q.bytes[..n]);
      }
    }

    /** hello_process; false when there is no room. */
    method Greet() returns (ok: bool)
      requires Valid() && client.HelloSt?
      modifies this, wb, wb.data
      ensures Valid() && ok == (old(View()).wb.Space() >= 2)
      ensures View() == if ok then Greeting(old(View())) else old(View())
    {
      var chosen := client.hello.chosen;
      var n := H.Marshall(wb, chosen);
      if n == -1 {
        return false;
      }
      log := log.(replies := log.replies + H.Reply(chosen), chosen := chosen);
      return true;
    }

    /** The end of auth_process. */
    method Judge(verdict: byte, ghost gate: Gate)
      requires Valid() && client.AuthSt? && View().wb.Space() >= 2
      modifies this, wb, wb.data
      ensures Valid() && View() == Judged(old(View()), verdict, gate)
    {
      client := client.(verdict := verdict);
      var _ := A.Marshall(wb, verdict);
      log := log.(replies := log.replies + A.Reply(verdict), gate := gate);
    }

    /** Marshalling into the write buffer; false when there is no room. */
    method Answer(status: byte) returns (ok: bool)
      requires Valid() && client.RequestSt?
      modifies this, wb, wb.data
      ensures Valid() && ok == (old(View()).wb.Space() >= 10)
      ensures ok ==> View() == Answering(old(View()), status)
    {
      client := client.(status := status);
      var n := R.Marshall(wb, status);
      log := log.(replies := log.replies + R.Reply(status));
      return n != -1;
    }

    /** The origin descriptor, which counts as a reference once it is registered. */
    method SetOrigin(fd: int, registered: bool)
      requires Valid()
      modifies this
      ensures Valid()
      ensures View() == old(View()).(originFd := fd, references := old(references) + if registered then 1 else 0)
    {
      originFd := fd;
      if registered {
        references := references + 1;
      }
    }

    /** socks5_destroy, up to what becomes of the object. */
    method Unref()
      requires Valid()
      modifies this
      ensures Valid() && View() == Destroy(old(View()))
    {
      if references == 1 {
        live := false;
      } else {
        references := if references > 0 then references - 1 else 0;
      }
    }

    /** handle_first with the arrival hook of HELLO_READ. */
    method Begin(ghost authOn: bool)
      requires Valid()
      modifies this
      ensures Valid()
      ensures View() == old(View()).(phase := HelloRead, client := HelloSt(H.INIT),
                                     log := old(View()).log.(authAtHello := authOn))
    {
      phase := HelloRead;
      client := HelloSt(H.INIT);
      log := log.(authAtHello := authOn);
    }

    ghost method MarkCopied()
      requires Valid()
      modifies this`log
      ensures Valid() && View() == old(View()).(log := old(log).(copied := true))
    {
      log := log.(copied := true);
    }

    /** The arrival hooks. */
    method Arrival()
      requires Valid()
      modifies this
      ensures Valid() && View() == Arrive(old(View()))
    {
      match phase {
        case AuthRead => client := AuthSt(A.INIT, A.FAILURE);
        case RequestRead => client := RequestSt(R.INIT, R.GENERAL_FAILURE);
        case RequestConnecting => origin := Connecting;
        case Copy => client, origin := ClientCopy(BOTH), OriginCopy(BOTH);
        case _ =>
      }
    }

    /** The receiving half of copy_r, by the end that ran. */
    method CopyInClient(io: Io)
      requires Valid() && client.ClientCopy? && origin.OriginCopy?
      modifies this, rb, rb.data
      ensures Valid() && View() == CopyReadClient(old(View()), Received(old(View()).rb, io.recv))
    {
      hide Received;
      log := log.(touched := true);
      var data := Recv(rb, io.recv);
      if data == [] {
        assert old(View()).rb.Put([]) == old(View()).rb;
        client, origin := ClientCopy(client.cDuplex.(read := false)), OriginCopy(origin.oDuplex.(write := false));
      } else {
        log := log.(fromClient := log.fromClient + data);
      }
    }

    method CopyInOrigin(io: Io)
      requires Valid() && client.ClientCopy? && origin.OriginCopy?
      modifies this, wb, wb.data
      ensures Valid() && View() == CopyReadOrigin(old(View()), Received(old(View()).wb, io.recv))
    {
      hide Received;
      log := log.(touched := true);
      var data := Recv(wb, io.recv);
      if data == [] {
        assert old(View()).wb.Put([]) == old(View()).wb;
        client, origin := ClientCopy(client.cDuplex.(write := false)), OriginCopy(origin.oDuplex.(read := false));
      } else {
        log := log.(fromOrigin := log.fromOrigin + data);
      }
    }

    method CopyIn(fd: int, io: Io) returns (mine: Interest)
      requires Valid() && client.ClientCopy? && origin.OriginCopy?
      modifies this, rb, wb, rb.data, wb.data
      ensures Valid() && client.ClientCopy? && origin.OriginCopy?
      ensures View() == var c := old(View());
                        if fd == c.clientFd then CopyReadClient(c, Received(c.rb, io.recv))
                        else CopyReadOrigin(c, Received(c.wb, io.recv))
      ensures mine == if fd == clientFd then client.cDuplex else origin.oDuplex
    {
      hide Received;
      if fd == clientFd {
        CopyInClient(io);
        return client.cDuplex;
      } else {
        CopyInOrigin(io);
        return origin.oDuplex;
      }
    }

    /** The sending half of copy_w. */
    method CopyOutClient(io: Io) returns (n: int)
      requires Valid() && client.ClientCopy? && origin.OriginCopy?
      modifies this, wb, wb.data
      ensures n == Sent(old(View()).wb, io.send)
      ensures Valid() && View() == CopyWriteClient(old(View()), n)
    {
      hide Sent;
      log := log.(touched := true);
      ghost var q := wb.View();
      n := Send(wb, io.send);
      if n < 0 {
        client, origin := ClientCopy(client.cDuplex.(write := false)), OriginCopy(origin.oDuplex.(read := false));
      } else {
        log := log.(toClient := log.toClient + q.bytes[..n]);
      }
    }

    method CopyOutOrigin(io: Io) returns (n: int)
      requires Valid() && client.ClientCopy? && origin.OriginCopy?
      modifies this, rb, rb.data
      ensures n == Sent(old(View()).rb, io.send)
      ensures Valid() && View() == CopyWriteOrigin(old(View()), n)
    {
      hide Sent;
      log := log.(touched := true);
      ghost var q := rb.View();
      n := Send(rb, io.send);
      if n < 0 {
        client, origin := ClientCopy(client.cDuplex.(read := false)), OriginCopy(origin.oDuplex.(write := false));
      } else {
        log := log.(toOrigin := log.toOrigin + q.bytes[..n]);
      }
    }

    method CopyOut(fd: int, io: Io) returns (mine: Interest, n: int)
      requires Valid() && client.ClientCopy? && origin.OriginCopy?
      modifies this, rb, wb, rb.data, wb.data
      ensures Valid() && client.ClientCopy? && origin.OriginCopy?
      ensures n == Sent(if fd == old(clientFd) then old(View()).wb else old(View()).rb, io.send)
      ensures View() == if fd == old(clientFd) then CopyWriteClient(old(View()), n) else CopyWriteOrigin(old(View()), n)
      ensures mine == if fd == clientFd then client.cDuplex else origin.oDuplex
    {
      hide Sent;
      if fd == clientFd {
        n := CopyOutClient(io);
        mine := client.cDuplex;
      } else {
        n := CopyOutOrigin(io);
        mine := origin.oDuplex;
      }
    }
  }

  /** The selector and the file-level variables. */
  class Proxy {
    const sel: FdSelector
    var authOn: bool
    var users: seq<User>
    var historic: nat
    var current: nat
    var transferred: nat

    ghost predicate Valid()
      reads this, sel, sel.fds
    {
      sel.Valid() && sel.fds.Length >= FD_SETSIZE
    }

    ghost function G(): Globals
      reads this
    {
      Globals(authOn, users, historic, current, transferred)
    }

    constructor (stored: seq<User>)
      ensures Valid() && fresh(sel) && fresh(sel.fds) && sel.View() == map[] && G() == Globals(true, stored, 0, 0, 0)
    {
      sel := new FdSelector(FD_SETSIZE);
      authOn, users, historic, current, transferred := true, stored, 0, 0, 0;
    }

    ghost predicate Ready(s: Connection)
      reads this, sel, sel.fds, s, s.rb, s.wb
    {
      Valid() && s.Valid()
    }

    ghost function Now(s: Connection, ret: Phase): Out
      reads this, sel, sel.fds, s, s.rb, s.wb, s.rb.data, s.wb.data
      requires Ready(s)
    {
      Out(s.View(), sel.View(), G(), ret)
    }

    method SetInterest(fd: int, i: Interest) returns (st: Status)
      requires Valid()
      modifies sel, sel.fds
      ensures Valid() && sel.fds == old(sel.fds)
      ensures Outcome(sel.View(), st) == AfterSetInterest(old(sel.View()), fd, i)
    {
      st := sel.SetInterest(fd, i);
    }

    // ---------------------------------------------------------------- COPY

    /** copy_compute_interests for the client end and for the origin end; false stands for the abort. */
    method ComputeInterests(fd: int, duplex: Interest, rb: Buffer, wb: Buffer) returns (ok: bool)
      requires Valid() && rb.Valid() && wb.Valid()
      modifies sel, sel.fds
      ensures Valid() && sel.fds == old(sel.fds)
      ensures var o := AfterSetInterest(old(sel.View()), fd, Wanted(duplex, rb.View(), wb.View()));
              sel.View() == o.table && ok == (o.status == SUCCESS)
    {
      var ret := Interest(duplex.read && rb.CanWrite(), duplex.write && wb.CanRead());
      var st := sel.SetInterest(fd, ret);
      return st == SUCCESS;
    }

    method EndCopy(s: Connection, mine: Interest) returns (ret: Phase)
      requires Ready(s) && s.client.ClientCopy? && s.origin.OriginCopy?
      requires !CopyEnd(s.View(), sel.View(), G(), mine).Abort?
      modifies this, sel, sel.fds
      ensures Ready(s) && sel.fds == old(sel.fds)
      ensures Now(s, ret) == CopyEnd(old(s.View()), old(sel.View()), old(G()), mine)
    {
      hide AfterSetInterest, Wanted;
      var ok1 := ComputeInterests(s.clientFd, s.client.cDuplex, s.rb, s.wb);
      var ok2 := ComputeInterests(s.originFd, s.origin.oDuplex, s.wb, s.rb);
      ret := Copy;
      if mine == NOOP {
        ret := Done;
        CountExit();
      }
    }

    method CopyRead(s: Connection, fd: int, io: Io) returns (ret: Phase)
      requires Ready(s) && !CopyReadH(s.View(), sel.View(), G(), fd, io).Abort?
      modifies this, sel, sel.fds, s, s.rb, s.wb, s.rb.data, s.wb.data
      ensures Ready(s) && sel.fds == old(sel.fds)
      ensures Now(s, ret) == CopyReadH(old(s.View()), old(sel.View()), old(G()), fd, io)
    {
      hide CopyReadClient, CopyReadOrigin, CopyEnd, Received;
      var mine := s.CopyIn(fd, io);
      ret := EndCopy(s, mine);
    }

    method CopyWrite(s: Connection, fd: int, io: Io) returns (ret: Phase)
      requires Ready(s) && !CopyWriteH(s.View(), sel.View(), G(), fd, io).Abort?
      modifies this, sel, sel.fds, s, s.rb, s.wb, s.rb.data, s.wb.data
      ensures Ready(s) && sel.fds == old(sel.fds)
      ensures Now(s, ret) == CopyWriteH(old(s.View()), old(sel.View()), old(G()), fd, io)
    {
      hide CopyWriteClient, CopyWriteOrigin, CopyEnd, Sent;
      var mine, n := s.CopyOut(fd, io);
      if n >= 0 {
        transferred := (transferred + n) % U32;
      }
      ret := EndCopy(s, mine);
    }

    // ---------------------------------------------------------------- HELLO

    method HelloRead(s: Connection, fd: int, io: Io) returns (ret: Phase)
      requires Ready(s) && !HelloReadH(s.View(), sel.View(), G(), fd, io).Abort?
      modifies this, sel, sel.fds, s, s.rb, s.wb, s.rb.data, s.wb.data
      ensures Ready(s) && sel.fds == old(sel.fds)
      ensures Now(s, ret) == HelloReadH(old(s.View()), old(sel.View()), old(G()), fd, io)
    {
      hide AfterHello, Received, Greeting;
      var data := s.TakeHello(authOn, io);
      if data == [] {
        return Error;
      }
      AfterHelloKeeps(old(s.View()), authOn, data);
      var p := s.client.hello;
      if !H.IsDone(p) {
        return Phase.HelloRead;
      }
      var st := SetInterest(fd, WRITE);
      if st != SUCCESS {
        return Error;
      }
      var ok := s.Greet();
      if !ok {
        return Error;
      }
      return if H.Errored(p) then Error else Phase.HelloWrite;
    }

    method HelloWrite(s: Connection, fd: int, io: Io) returns (ret: Phase)
      requires Ready(s) && !HelloWriteH(s.View(), sel.View(), G(), fd, io).Abort?
      modifies this, sel, sel.fds, s, s.rb, s.wb, s.rb.data, s.wb.data
      ensures Ready(s) && sel.fds == old(sel.fds)
      ensures Now(s, ret) == HelloWriteH(old(s.View()), old(sel.View()), old(G()), fd, io)
    {
      var n := s.Flush(io);
      if n < 0 {
        return Error;
      }
      if s.wb.CanRead() {
        return Phase.HelloWrite;
      }
      var st := SetInterest(fd, READ);
      if st != SUCCESS {
        return Error;
      }
      if authOn {
        s.log := s.log.(authAtFlush := true);
        return Phase.AuthRead;
      }
      s.log := s.log.(gate := AuthOff, authAtFlush := false);
      return Phase.RequestRead;
    }

    // ---------------------------------------------------------------- AUTH

    /** The loop over the users. */
    method Authenticate(cred: A.Credentials) returns (found: bool)
      ensures found <==> exists i :: 0 <= i < |users| && Matches(users[i], cred)
    {
      for i := 0 to |users|
        invariant forall k :: 0 <= k < i ==> !Matches(users[k], cred)
      {
        if CString(cred.uname) == users[i].name && CString(cred.passwd) == users[i].pass {
          assert Matches(users[i], cred);
          return true;
        }
      }
      return false;
    }

    method ProcessAuth(s: Connection) returns (ret: Phase)
      requires Ready(s) && s.client.AuthSt? && !AuthProcess(s.View(), sel.View(), G(), s.client.auth).Abort?
      modifies s, s.wb, s.wb.data
      ensures Ready(s)
      ensures Now(s, ret) == AuthProcess(old(s.View()), old(sel.View()), old(G()), old(s.client.auth))
    {
      var cred := s.client.auth;
      ghost var gate := FindUser(users, cred);
      var found := Authenticate(cred);
      hide FindUser, Judged, Matches;
      s.Judge(if found then A.SUCCEEDED else A.FAILURE, gate);
      return if A.Errored(cred) then Error else Phase.AuthWrite;
    }

    method AuthRead(s: Connection, fd: int, io: Io) returns (ret: Phase)
      requires Ready(s) && !AuthReadH(s.View(), sel.View(), G(), fd, io).Abort?
      modifies this, sel, sel.fds, s, s.rb, s.wb, s.rb.data, s.wb.data
      ensures Ready(s) && sel.fds == old(sel.fds)
      ensures Now(s, ret) == AuthReadH(old(s.View()), old(sel.View()), old(G()), fd, io)
    {
      hide AfterAuth, Received, AuthProcess;
      var data := s.TakeAuth(io);
      if data == [] {
        return Error;
      }
      AfterAuthKeeps(old(s.View()), data);
      if !A.IsDone(s.client.auth) {
        return Phase.AuthRead;
      }
      var st := SetInterest(fd, WRITE);
      if st != SUCCESS {
        return Error;
      }
      ret := ProcessAuth(s);
    }

    method AuthWrite(s: Connection, fd: int, io: Io) returns (ret: Phase)
      requires Ready(s) && !AuthWriteH(s.View(), sel.View(), G(), fd, io).Abort?
      modifies this, sel, sel.fds, s, s.rb, s.wb, s.rb.data, s.wb.data
      ensures Ready(s) && sel.fds == old(sel.fds)
      ensures Now(s, ret) == AuthWriteH(old(s.View()), old(sel.View()), old(G()), fd, io)
    {
      var n := s.Flush(io);
      if n < 0 {
        return Error;
      }
      if s.wb.CanRead() {
        return Phase.AuthWrite;
      }
      if s.client.verdict == A.SUCCEEDED {
        var st := SetInterest(fd, READ);
        return if st == SUCCESS then Phase.RequestRead else Error;
      }
      var _ := SetInterest(fd, NOOP);
      return Error;
    }

    // ---------------------------------------------------------------- REQUEST

    /** request_error_write */
    method WriteError(s: Connection, status: byte) returns (ret: Phase)
      requires Ready(s) && !ErrorWrite(s.View(), sel.View(), G(), status).Abort?
      modifies sel, sel.fds, s, s.wb, s.wb.data
      ensures Ready(s) && sel.fds == old(sel.fds)
      ensures Now(s, ret) == ErrorWrite(old(s.View()), old(sel.View()), old(G()), status)
    {
      hide Answering;
      AnsweringKeeps(s.View(), status);
      var _ := s.Answer(status);
      var st := SetInterest(s.clientFd, WRITE);
      return if st == SUCCESS then Phase.RequestWrite else Error;
    }

    /** On a retry the previous origin descriptor goes first, and with it a reference. */
    method CloseOrigin(s: Connection)
      requires Ready(s)
      modifies sel, sel.fds, s
      ensures Ready(s) && sel.fds == old(sel.fds)
      ensures (s.View(), sel.View()) == DropOrigin(old(s.View()), old(sel.View()))
    {
      var st, _ := sel.Unregister(s.originFd);
      if st == SUCCESS {
        s.Unref();
      }
    }

    /** request_connect; what the kernel answers to socket and connect is `io.connect`. */
    method Connect(s: Connection, id: nat, io: Io) returns (ret: Phase)
      requires Ready(s) && !RequestConnect(s.View(), sel.View(), G(), id, io).Abort?
      modifies sel, sel.fds, s, s.wb, s.wb.data
      ensures Ready(s) && (sel.fds == old(sel.fds) || fresh(sel.fds))
      ensures Now(s, ret) == RequestConnect(old(s.View()), old(sel.View()), old(G()), id, io)
    {
      hide ErrorWrite, DropOrigin, Awaiting;
      if s.phase == Phase.RequestConnecting {
        CloseOrigin(s);
      }
      match io.connect {
        case NoSocket =>
          s.SetOrigin(-1, false);
          ret := WriteError(s, R.GENERAL_FAILURE);
        case Refused(e) =>
          s.SetOrigin(-1, false);
          ret := WriteError(s, R.ErrnoToSocks(e));
        case InProgress(fd) =>
          ret := AwaitConnection(s, id, fd);
      }
    }

    /** The part of request_connect that follows EINPROGRESS. */
    method AwaitConnection(s: Connection, id: nat, fd: int) returns (ret: Phase)
      requires Ready(s) && !Awaiting(s.View(), sel.View(), G(), id, fd).Abort?
      modifies sel, sel.fds, s, s.wb, s.wb.data
      ensures Ready(s) && (sel.fds == old(sel.fds) || fresh(sel.fds))
      ensures Now(s, ret) == Awaiting(old(s.View()), old(sel.View()), old(G()), id, fd)
    {
      hide ErrorWrite, AfterSetInterest, AfterRegister;
      var status := s.client.status;
      var ok := Watch(s.clientFd, fd, id);
      s.SetOrigin(if ok then fd else -1, ok);
      if !ok {
        ret := WriteError(s, status);
        return;
      }
      return Phase.RequestConnecting;
    }

    /** Stop reading the client, register the new descriptor. */
    method Watch(clientFd: int, fd: int, id: nat) returns (ok: bool)
      requires Valid()
      modifies sel, sel.fds
      ensures Valid() && (sel.fds == old(sel.fds) || fresh(sel.fds))
      ensures var s1 := AfterSetInterest(old(sel.View()), clientFd, NOOP);
              var s2 := AfterRegister(s1.table, fd, WRITE, id);
              && ok == (s1.status == SUCCESS && s2.status == SUCCESS)
              && sel.View() == if s1.status == SUCCESS then s2.table else s1.table
    {
      hide AfterSetInterest, AfterRegister;
      var st := SetInterest(clientFd, NOOP);
      if st == SUCCESS {
        st := sel.Register(fd, true, WRITE, id, true);
      }
      return st == SUCCESS;
    }

    /** request_process; with a name it stops where the DNS thread has just been created. */
    method ProcessRequest(s: Connection, id: nat, io: Io) returns (ret: Phase)
      requires Ready(s) && !RequestProcess(s.View(), sel.View(), G(), id, io).Abort?
      modifies sel, sel.fds, s, s.wb, s.wb.data
      ensures Ready(s) && (sel.fds == old(sel.fds) || fresh(sel.fds))
      ensures Now(s, ret) == RequestProcess(old(s.View()), old(sel.View()), old(G()), id, io)
    {
      hide ErrorWrite, RequestConnect, TargetOf;
      var r := s.client.req;
      if r.cmd != R.CONNECT {
        ret := WriteError(s, R.COMMAND_NOT_SUPPORTED);
      } else if r.atyp == R.IPV4 || r.atyp == R.IPV6 {
        s.target := TargetOf(r);
        ret := Connect(s, id, io);
      } else if r.atyp != R.DOMAIN {
        ret := WriteError(s, R.ADDRESS_NOT_SUPPORTED);
      } else if !io.memory {
        ret := WriteError(s, R.GENERAL_FAILURE);
      } else {
        s.spawned := true;
        s.log := s.log.(spawns := s.log.spawns + 1);
        return Phase.RequestRead;
      }
    }

    method RequestRead(s: Connection, id: nat, io: Io) returns (ret: Phase)
      requires Ready(s) && !RequestReadH(s.View(), sel.View(), G(), id, io).Abort?
      modifies sel, sel.fds, s, s.rb, s.wb, s.rb.data, s.wb.data
      ensures Ready(s) && (sel.fds == old(sel.fds) || fresh(sel.fds))
      ensures Now(s, ret) == RequestReadH(old(s.View()), old(sel.View()), old(G()), id, io)
    {
      hide AfterRequest, Received, RequestProcess;
      var data := s.TakeRequest(io);
      if data == [] {
        return Error;
      }
      AfterRequestKeeps(old(s.View()), data);
      if R.Errored(s.client.req) {
        return Error;
      } else if !R.IsDone(s.client.req) {
        return Phase.RequestRead;
      }
      ret := ProcessRequest(s, id, io);
    }

    /** request_resolv_done */
    method ResolvDone(s: Connection, id: nat, io: Io) returns (ret: Phase)
      requires Ready(s) && !ResolvDoneH(s.View(), sel.View(), G(), id, io).Abort?
      modifies sel, sel.fds, s, s.wb, s.wb.data
      ensures Ready(s) && (sel.fds == old(sel.fds) || fresh(sel.fds))
      ensures Now(s, ret) == ResolvDoneH(old(s.View()), old(sel.View()), old(G()), id, io)
    {
      hide ErrorWrite, RequestConnect;
      s.log := s.log.(dispatches := s.log.dispatches + 1);
      if s.resolution == [] {
        ret := WriteError(s, R.HOST_UNREACHABLE);
      } else {
        s.tried, s.target := 0, s.resolution[0];
        ret := Connect(s, id, io);
      }
    }

    /** The end of request_connecting. */
    method FinishConnecting(s: Connection, fd: int, status: byte) returns (ret: Phase)
      requires Ready(s) && !Connected(s.View(), sel.View(), G(), fd, status).Abort?
      modifies sel, sel.fds, s, s.wb, s.wb.data
      ensures Ready(s) && sel.fds == old(sel.fds)
      ensures Now(s, ret) == Connected(old(s.View()), old(sel.View()), old(G()), fd, status)
    {
      hide AfterSetInterest;
      if s.client.req.atyp == R.DOMAIN {
        s.resolution, s.tried := [], 0;
      }
      var _ := s.Answer(status);
      var st1 := SetInterest(s.clientFd, WRITE);
      var st2 := SetInterest(fd, NOOP);
      return if st1 == SUCCESS && st2 == SUCCESS then Phase.RequestWrite else Error;
    }

    /** The next address the name resolved to. */
    method TryNext(s: Connection, id: nat, io: Io)
      requires Ready(s) && s.tried + 1 < |s.resolution| && !Retry(s.View(), sel.View(), G(), id, io).Abort?
      modifies sel, sel.fds, s, s.wb, s.wb.data
      ensures Ready(s) && (sel.fds == old(sel.fds) || fresh(sel.fds))
      ensures Now(s, Phase.RequestConnecting) == Retry(old(s.View()), old(sel.View()), old(G()), id, io)
    {
      hide RequestConnect;
      s.tried := s.tried + 1;
      s.target := s.resolution[s.tried];
      var _ := Connect(s, id, io);
    }

    /** request_connecting; the result of a retry is ignored, as it is there. */
    method Connecting(s: Connection, id: nat, fd: int, io: Io) returns (ret: Phase)
      requires Ready(s) && !ConnectingH(s.View(), sel.View(), G(), id, fd, io).Abort?
      modifies sel, sel.fds, s, s.wb, s.wb.data
      ensures Ready(s) && (sel.fds == old(sel.fds) || fresh(sel.fds))
      ensures Now(s, ret) == ConnectingH(old(s.View()), old(sel.View()), old(G()), id, fd, io)
    {
      hide Connected, Retry;
      match io.sockopt {
        case OptFails =>
          ret := FinishConnecting(s, fd, R.GENERAL_FAILURE);
        case SoError(e) =>
          if e.NoError? {
            s.originFd := fd;
            ret := FinishConnecting(s, fd, R.SUCCEEDED);
          } else if s.client.req.atyp == R.DOMAIN && s.tried + 1 < |s.resolution| {
            TryNext(s, id, io);
            ret := Phase.RequestConnecting;
          } else {
            ret := FinishConnecting(s, fd, R.ErrnoToSocks(e));
          }
      }
    }

    method RequestWrite(s: Connection, io: Io) returns (ret: Phase)
      requires Ready(s) && !RequestWriteH(s.View(), sel.View(), G(), io).Abort?
      modifies this, sel, sel.fds, s, s.wb, s.wb.data
      ensures Ready(s) && sel.fds == old(sel.fds)
      ensures Now(s, ret) == RequestWriteH(old(s.View()), old(sel.View()), old(G()), io)
    {
      hide Sent, Replied, Flushed;
      var n := s.Flush(io);
      if n < 0 {
        return Error;
      }
      FlushedKeeps(old(s.View()), n);
      if s.wb.CanRead() {
        return Phase.RequestWrite;
      }
      ret := Conclude(s);
    }

    /** The end of request_write: the reply is out. */
    method Conclude(s: Connection) returns (ret: Phase)
      requires Ready(s) && s.client.RequestSt?
      modifies this, sel, sel.fds, s
      ensures Ready(s) && sel.fds == old(sel.fds)
      ensures Now(s, ret) == Replied(old(s.View()), old(sel.View()), old(G()))
    {
      hide AfterSetInterest;
      if s.client.status == R.SUCCEEDED {
        EnterCopy(s);
        return Copy;
      }
      if s.originFd != -1 {
        SetBoth(s, NOOP);
      } else {
        var _ := SetInterest(s.clientFd, NOOP);
      }
      return Error;
    }

    method EnterCopy(s: Connection)
      requires Ready(s) && s.client.RequestSt? && s.client.status == R.SUCCEEDED
      modifies this, sel, sel.fds, s`log
      ensures Ready(s) && sel.fds == old(sel.fds)
      ensures Now(s, Copy) == Replied(old(s.View()), old(sel.View()), old(G()))
    {
      hide AfterSetInterest;
      SetBoth(s, READ);
      CountEntry();
      s.MarkCopied();
    }

    method CountExit()
      modifies this
      ensures G() == old(G()).(current := (old(current) + U32 - 1) % U32)
    {
      current := (current + U32 - 1) % U32;
    }

    method CountEntry()
      modifies this
      ensures G() == old(G()).(historic := (old(historic) + 1) % U32, current := (old(current) + 1) % U32)
    {
      historic, current := (historic + 1) % U32, (current + 1) % U32;
    }

    method SetBoth(s: Connection, i: Interest)
      requires Ready(s)
      modifies sel, sel.fds
      ensures Ready(s) && sel.fds == old(sel.fds) && s.View() == old(s.View())
      ensures sel.View() ==
              AfterSetInterest(AfterSetInterest(old(sel.View()), s.clientFd, i).table, s.originFd, i).table
    {
      hide AfterSetInterest;
      var _ := SetInterest(s.clientFd, i);
      var _ := SetInterest(s.originFd, i);
    }

    // ---------------------------------------------------------------- the engine of stm.c

    method First(s: Connection)
      requires Ready(s)
      modifies this, s
      ensures Ready(s)
      ensures s.View() == HandleFirst(old(s.View()), old(G())) && G() == FirstGlobals(old(s.View()), old(G()))
    {
      if s.phase == Fresh {
        if |users| == 0 {
          authOn := false;
        }
        s.Begin(authOn);
      }
    }

    method JumpTo(s: Connection, next: Phase)
      requires Ready(s)
      modifies s
      ensures Ready(s) && Now(s, next) == Jump(old(Now(s, next)))
    {
      hide Arrive;
      if s.phase != next {
        s.phase := next;
        s.Arrival();
      }
    }

    /** One descriptor of socksv5_done. */
    method Close(s: Connection, fd: int, ghost ret: Phase)
      requires Ready(s) && !CloseFd(Now(s, ret), fd).Abort?
      modifies sel, sel.fds, s
      ensures Ready(s) && sel.fds == old(sel.fds) && Now(s, ret) == CloseFd(old(Now(s, ret)), fd)
    {
      hide Destroy;
      if fd != -1 {
        var _, _ := sel.Unregister(fd);
        s.Unref();
      }
    }

    /** The tail of socksv5_read, socksv5_write and socksv5_block. */
    method Finish(s: Connection, ret: Phase)
      requires Ready(s) && !Settle(Now(s, ret)).Abort?
      modifies sel, sel.fds, s
      ensures Ready(s) && sel.fds == old(sel.fds) && Now(s, ret) == Settle(old(Now(s, ret)))
    {
      hide CloseFd;
      if ret == Done || ret == Error {
        var client, origin := s.clientFd, s.originFd;
        NoCloseAborts(Now(s, ret), client, origin);
        Close(s, client, ret);
        Close(s, origin, ret);
      }
    }

    /** stm_handler_read, up to the jump. */
    method RunReader(s: Connection, id: nat, fd: int, io: Io) returns (ret: Phase)
      requires Ready(s) && !ReadHandler(s.View(), sel.View(), G(), id, fd, io).Abort?
      modifies this, sel, sel.fds, s, s.rb, s.wb, s.rb.data, s.wb.data
      ensures Ready(s) && (sel.fds == old(sel.fds) || fresh(sel.fds))
      ensures Now(s, ret) == ReadHandler(old(s.View()), old(sel.View()), old(G()), id, fd, io)
    {
      hide HelloReadH, AuthReadH, RequestReadH, CopyReadH;
      match s.phase {
        case HelloRead => ret := HelloRead(s, fd, io);
        case AuthRead => ret := AuthRead(s, fd, io);
        case RequestRead => ret := RequestRead(s, id, io);
        case Copy => ret := CopyRead(s, fd, io);
      }
    }

    /** socksv5_read */
    method Read(s: Connection, id: nat, fd: int, io: Io) returns (ret: Phase)
      requires Ready(s) && !OnRead(s.View(), sel.View(), G(), id, fd, io).Abort?
      modifies this, sel, sel.fds, s, s.rb, s.wb, s.rb.data, s.wb.data
      ensures Ready(s) && (sel.fds == old(sel.fds) || fresh(sel.fds))
      ensures Now(s, ret) == OnRead(old(s.View()), old(sel.View()), old(G()), id, fd, io)
    {
      hide HandleFirst, FirstGlobals, ReadHandler, Jump, Settle;
      First(s);
      NoneAborts(ReadHandler(s.View(), sel.View(), G(), id, fd, io));
      ret := RunReader(s, id, fd, io);
      JumpTo(s, ret);
      Finish(s, ret);
    }

    /** stm_handler_write, up to the jump. */
    method RunWriter(s: Connection, id: nat, fd: int, io: Io) returns (ret: Phase)
      requires Ready(s) && !WriteHandler(s.View(), sel.View(), G(), id, fd, io).Abort?
      modifies this, sel, sel.fds, s, s.rb, s.wb, s.rb.data, s.wb.data
      ensures Ready(s) && (sel.fds == old(sel.fds) || fresh(sel.fds))
      ensures Now(s, ret) == WriteHandler(old(s.View()), old(sel.View()), old(G()), id, fd, io)
    {
      hide HelloWriteH, AuthWriteH, ConnectingH, RequestWriteH, CopyWriteH;
      match s.phase {
        case HelloWrite => ret := HelloWrite(s, fd, io);
        case AuthWrite => ret := AuthWrite(s, fd, io);
        case RequestConnecting => ret := Connecting(s, id, fd, io);
        case RequestWrite => ret := RequestWrite(s, io);
        case Copy => ret := CopyWrite(s, fd, io);
      }
    }

    /** socksv5_write */
    method Write(s: Connection, id: nat, fd: int, io: Io) returns (ret: Phase)
      requires Ready(s) && !OnWrite(s.View(), sel.View(), G(), id, fd, io).Abort?
      modifies this, sel, sel.fds, s, s.rb, s.wb, s.rb.data, s.wb.data
      ensures Ready(s) && (sel.fds == old(sel.fds) || fresh(sel.fds))
      ensures Now(s, ret) == OnWrite(old(s.View()), old(sel.View()), old(G()), id, fd, io)
    {
      hide HandleFirst, FirstGlobals, WriteHandler, Jump, Settle;
      First(s);
      NoneAborts(WriteHandler(s.View(), sel.View(), G(), id, fd, io));
      ret := RunWriter(s, id, fd, io);
      JumpTo(s, ret);
      Finish(s, ret);
    }

    /** socksv5_block */
    method Block(s: Connection, id: nat, io: Io) returns (ret: Phase)
      requires Ready(s) && !OnBlock(s.View(), sel.View(), G(), id, io).Abort?
      modifies this, sel, sel.fds, s, s.rb, s.wb, s.rb.data, s.wb.data
      ensures Ready(s) && (sel.fds == old(sel.fds) || fresh(sel.fds))
      ensures Now(s, ret) == OnBlock(old(s.View()), old(sel.View()), old(G()), id, io)
    {
      hide ResolvDoneH, Jump, Settle;
      NoneAborts(ResolvDoneH(s.View(), sel.View(), G(), id, io));
      ret := ResolvDone(s, id, io);
      JumpTo(s, ret);
      Finish(s, ret);
    }
  }

  lemma PutNothing(q: Queue)
    ensures q.Put([]) == q
  {
  }

  lemma AfterHelloIs(c: Conn, authOn: bool, data: seq<byte>)
    requires c.client.HelloSt?
    ensures var q := c.rb.Put(data);
            var p := H.Parsed(authOn, c.client.hello, q.bytes);
            var d := AfterHello(c, authOn, data);
            d == c.(rb := q.Take(p.eaten), client := HelloSt(p.st), log := d.log)
  {
    hide H.Parsed;
  }

  lemma AfterAuthIs(c: Conn, data: seq<byte>)
    requires c.client.AuthSt?
    ensures var q := c.rb.Put(data);
            var p := A.Parsed(c.client.auth, q.bytes);
            var d := AfterAuth(c, data);
            d == c.(rb := q.Take(p.eaten), client := c.client.(auth := p.st), log := d.log)
  {
    hide A.Parsed;
  }

  lemma AfterRequestIs(c: Conn, data: seq<byte>)
    requires c.client.RequestSt?
    ensures var q := c.rb.Put(data);
            var p := R.Parsed(c.client.req, q.bytes);
            var d := AfterRequest(c, data);
            d == c.(rb := q.Take(p.eaten), client := c.client.(req := p.st), log := d.log)
  {
    hide R.Parsed;
  }

  lemma AfterHelloKeeps(c: Conn, authOn: bool, data: seq<byte>)
    requires c.client.HelloSt?
    ensures AfterHello(c, authOn, data).client.HelloSt?
  {
  }

  lemma AfterAuthKeeps(c: Conn, data: seq<byte>)
    requires c.client.AuthSt?
    ensures AfterAuth(c, data).client.AuthSt?
  {
  }

  lemma AnsweringKeeps(c: Conn, status: byte)
    requires c.client.RequestSt?
    ensures Answering(c, status).clientFd == c.clientFd
  {
  }

  lemma AfterRequestKeeps(c: Conn, data: seq<byte>)
    requires c.client.RequestSt?
    ensures AfterRequest(c, data).client.RequestSt?
  {
  }

  lemma NoneAborts(h: Out)
    ensures Settle(Jump(h)).Out? ==> h.Out?
  {
  }

  lemma NoCloseAborts(o: Out, a: int, b: int)
    ensures CloseFd(CloseFd(o, a), b).Out? ==> CloseFd(o, a).Out?
  {
  }

  lemma FlushedKeeps(c: Conn, n: nat)
    requires n <= |c.wb.bytes|
    ensures Flushed(c, n).client == c.client && Flushed(c, n).wb == c.wb.Take(n)
  {
  }
}
