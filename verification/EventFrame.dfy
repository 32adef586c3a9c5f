/** Whatever the state of a connection, an event on it touches no descriptor but its own. */
module EventFrame {
  import opened Bytes
  import opened Selector
  import opened Session
  import H = Hello
  import A = Auth
  import R = Request

  /** Descriptors outside `own` stay as they are; the others stay with whom they were, or go to `id`. */
  ghost predicate Spares(t: Table, t': Table, own: set<int>, id: nat) {
    && (forall f :: f in t && f !in own ==> f in t' && t'[f] == t[f])
    && (forall f :: f in t' ==> t'[f].data == id || (f in t && t[f].data == t'[f].data))
  }

  /** The descriptors of the connection afterwards are those it had, or new ones. */
  ghost predicate Modest(c: Conn, t: Table, own: set<int>, id: nat, o: Out) {
    o.Out? ==>
      && Spares(t, o.t, own, id) && o.c.clientFd == c.clientFd
      && (o.c.originFd == -1 || o.c.originFd in own || o.c.originFd !in t)
  }

  lemma SparesChains(t: Table, u: Table, v: Table, own: set<int>, id: nat)
    requires Spares(t, u, own, id) && Spares(u, v, own, id)
    ensures Spares(t, v, own, id)
  {
  }

  lemma InterestSpares(t: Table, fd: int, i: Interest, own: set<int>, id: nat)
    requires fd in own
    ensures Spares(t, AfterSetInterest(t, fd, i).table, own, id)
  {
  }

  lemma RegisterSpares(t: Table, fd: int, i: Interest, own: set<int>, id: nat)
    ensures Spares(t, AfterRegister(t, fd, i, id).table, own, id)
    ensures AfterRegister(t, fd, i, id).status == SUCCESS ==> fd !in t
  {
  }

  lemma UnregisterSpares(t: Table, fd: int, own: set<int>, id: nat)
    requires fd in own || fd !in t
    ensures Spares(t, AfterUnregister(t, fd).table, own, id)
  {
  }

  lemma SparesSelf(t: Table, own: set<int>, id: nat)
    ensures Spares(t, t, own, id)
  {
  }

  lemma ErrorWriteModest(c: Conn, t: Table, g: Globals, status: byte, own: set<int>, id: nat)
    requires c.clientFd in own && (c.originFd == -1 || c.originFd in own)
    ensures Modest(c, t, own, id, ErrorWrite(c, t, g, status))
  {
    InterestSpares(t, c.clientFd, WRITE, own, id);
    hide Spares, AfterSetInterest;
  }

  lemma AwaitingModest(c: Conn, t: Table, g: Globals, fd: int, own: set<int>, id: nat)
    requires c.clientFd in own
    ensures var o := Awaiting(c, t, g, id, fd);
            Modest(c, t, own, id, o)
  {
    var u := AfterSetInterest(t, c.clientFd, NOOP).table;
    InterestSpares(t, c.clientFd, NOOP, own, id);
    var failed := c.(originFd := -1);
    if c.client.RequestSt? {
      ErrorWriteModest(failed, u, g, c.client.status, own, id);
      var v := AfterRegister(u, fd, WRITE, id).table;
      RegisterSpares(u, fd, WRITE, own, id);
      SparesChains(t, u, v, own, id);
      ErrorWriteModest(failed, v, g, c.client.status, own, id);
      var o1, o2 := ErrorWrite(failed, u, g, c.client.status), ErrorWrite(failed, v, g, c.client.status);
      if o1.Out? { SparesChains(t, u, o1.t, own, id); }
      if o2.Out? { SparesChains(t, v, o2.t, own, id); }
      assert AfterSetInterest(t, c.clientFd, NOOP).status == SUCCESS ==> (fd in t <==> fd in u);
    }
    hide Spares, AfterSetInterest, AfterRegister, ErrorWrite;
  }

  /** The descriptors an event on `c` may touch. */
  function Own(c: Conn, fd: int): set<int> {
    {c.clientFd, c.originFd, fd}
  }

  lemma RequestConnectModest(c: Conn, t: Table, g: Globals, io: Io, own: set<int>, id: nat)
    requires c.clientFd in own && c.originFd in own
    ensures Modest(c, t, own, id, RequestConnect(c, t, g, id, io))
  {
    var (d, u) := if c.phase == RequestConnecting then DropOrigin(c, t) else (c, t);
    SparesSelf(t, own, id);
    UnregisterSpares(t, c.originFd, own, id);
    assert Spares(t, u, own, id) && (forall f :: f in t && f !in own ==> f in u);
    var failed := d.(originFd := -1);
    var o := RequestConnect(c, t, g, id, io);
    match io.connect {
      case NoSocket => ErrorWriteModest(failed, u, g, R.GENERAL_FAILURE, own, id);
      case Refused(e) =>
        ErrorWriteModest(failed, u, g, R.ErrnoToSocks(e), own, id);
      case InProgress(fd) => AwaitingModest(d, u, g, fd, own, id);
    }
    if o.Out? {
      SparesChains(t, u, o.t, own, id);
    }
    hide Spares, ErrorWrite, Awaiting, AfterUnregister;
  }

  lemma ConnectedModest(c: Conn, t: Table, g: Globals, fd: int, status: byte, own: set<int>, id: nat)
    requires c.clientFd in own && c.originFd in own && fd in own
    ensures Modest(c, t, own, id, Connected(c, t, g, fd, status))
  {
    var u := AfterSetInterest(t, c.clientFd, WRITE).table;
    InterestSpares(t, c.clientFd, WRITE, own, id);
    InterestSpares(u, fd, NOOP, own, id);
    SparesChains(t, u, AfterSetInterest(u, fd, NOOP).table, own, id);
    hide Spares, AfterSetInterest;
  }

  lemma ConnectingModest(c: Conn, t: Table, g: Globals, id: nat, fd: int, io: Io)
    ensures Modest(c, t, Own(c, fd), id, ConnectingH(c, t, g, id, fd, io))
  {
    var own := Own(c, fd);
    if c.client.RequestSt? && WillRetry(c, io) {
      var k := c.tried + 1;
      RequestConnectModest(c.(tried := k, target := c.resolution[k]), t, g, io, own, id);
    } else {
      ConnectedModest(c, t, g, fd, R.GENERAL_FAILURE, own, id);
      ConnectedModest(c.(originFd := fd), t, g, fd, R.SUCCEEDED, own, id);
      if io.sockopt.SoError? {
        ConnectedModest(c, t, g, fd, R.ErrnoToSocks(io.sockopt.e), own, id);
      }
    }
    hide Spares, RequestConnect, Connected;
  }

  lemma RequestProcessModest(c: Conn, t: Table, g: Globals, id: nat, fd: int, io: Io)
    ensures Modest(c, t, Own(c, fd), id, RequestProcess(c, t, g, id, io))
  {
    var own := Own(c, fd);
    SparesSelf(t, own, id);
    ErrorWriteModest(c, t, g, R.COMMAND_NOT_SUPPORTED, own, id);
    ErrorWriteModest(c, t, g, R.ADDRESS_NOT_SUPPORTED, own, id);
    ErrorWriteModest(c, t, g, R.GENERAL_FAILURE, own, id);
    if c.client.RequestSt? {
      RequestConnectModest(c.(target := TargetOf(c.client.req)), t, g, io, own, id);
    }
    hide Spares, RequestConnect, ErrorWrite, TargetOf;
  }

  lemma RepliedModest(c: Conn, t: Table, g: Globals, id: nat, fd: int)
    requires c.client.RequestSt?
    ensures Modest(c, t, Own(c, fd), id, Replied(c, t, g))
  {
    var own := Own(c, fd);
    var i := if c.client.status == R.SUCCEEDED then READ else NOOP;
    var u := AfterSetInterest(t, c.clientFd, i).table;
    InterestSpares(t, c.clientFd, i, own, id);
    InterestSpares(u, c.originFd, i, own, id);
    SparesChains(t, u, AfterSetInterest(u, c.originFd, i).table, own, id);
    hide Spares, AfterSetInterest;
  }

  lemma CopyEndModest(c: Conn, t: Table, g: Globals, mine: Interest, id: nat, fd: int)
    ensures Modest(c, t, Own(c, fd), id, CopyEnd(c, t, g, mine))
  {
    if c.client.ClientCopy? && c.origin.OriginCopy? {
      var own := Own(c, fd);
      var u := AfterSetInterest(t, c.clientFd, ClientWants(c)).table;
      InterestSpares(t, c.clientFd, ClientWants(c), own, id);
      InterestSpares(u, c.originFd, OriginWants(c), own, id);
      SparesChains(t, u, AfterSetInterest(u, c.originFd, OriginWants(c)).table, own, id);
    }
    hide Spares, AfterSetInterest;
  }

  lemma CopyReadModest(c: Conn, t: Table, g: Globals, id: nat, fd: int, io: Io)
    ensures Modest(c, t, Own(c, fd), id, CopyReadH(c, t, g, fd, io))
  {
    if c.client.ClientCopy? && c.origin.OriginCopy? {
      var c1, c2 := CopyReadClient(c, Received(c.rb, io.recv)), CopyReadOrigin(c, Received(c.wb, io.recv));
      CopyEndModest(c1, t, g, c1.client.cDuplex, id, fd);
      CopyEndModest(c2, t, g, c2.origin.oDuplex, id, fd);
    }
    hide Spares, CopyEnd, Received;
  }

  lemma CopyWriteModest(c: Conn, t: Table, g: Globals, id: nat, fd: int, io: Io)
    ensures Modest(c, t, Own(c, fd), id, CopyWriteH(c, t, g, fd, io))
  {
    if c.client.ClientCopy? && c.origin.OriginCopy? {
      var m, n := Sent(c.wb, io.send), Sent(c.rb, io.send);
      var c1, c2 := CopyWriteClient(c, m), CopyWriteOrigin(c, n);
      CopyEndModest(c1, t, Counted(g, m), c1.client.cDuplex, id, fd);
      CopyEndModest(c2, t, Counted(g, n), c2.origin.oDuplex, id, fd);
    }
    hide Spares, CopyEnd, Sent, Counted;
  }

  lemma InterestsSpare(t: Table, fd: int, own: set<int>, id: nat)
    requires fd in own
    ensures Spares(t, t, own, id)
    ensures forall i {:trigger AfterSetInterest(t, fd, i)} :: Spares(t, AfterSetInterest(t, fd, i).table, own, id)
  {
  }

  lemma HelloReadModest(c: Conn, t: Table, g: Globals, id: nat, fd: int, io: Io)
    ensures Modest(c, t, Own(c, fd), id, HelloReadH(c, t, g, fd, io))
  {
    InterestsSpare(t, fd, Own(c, fd), id);
    hide Spares, AfterSetInterest, H.Parsed, Received;
  }

  lemma HelloWriteModest(c: Conn, t: Table, g: Globals, id: nat, fd: int, io: Io)
    ensures Modest(c, t, Own(c, fd), id, HelloWriteH(c, t, g, fd, io))
  {
    InterestsSpare(t, fd, Own(c, fd), id);
    hide Spares, AfterSetInterest, Sent;
  }

  lemma AuthReadModest(c: Conn, t: Table, g: Globals, id: nat, fd: int, io: Io)
    ensures Modest(c, t, Own(c, fd), id, AuthReadH(c, t, g, fd, io))
  {
    InterestsSpare(t, fd, Own(c, fd), id);
    hide Spares, AfterSetInterest, A.Parsed, Received, FindUser;
  }

  lemma AuthWriteModest(c: Conn, t: Table, g: Globals, id: nat, fd: int, io: Io)
    ensures Modest(c, t, Own(c, fd), id, AuthWriteH(c, t, g, fd, io))
  {
    InterestsSpare(t, fd, Own(c, fd), id);
    hide Spares, AfterSetInterest, Sent;
  }

  lemma RequestReadModest(c: Conn, t: Table, g: Globals, id: nat, fd: int, io: Io)
    ensures Modest(c, t, Own(c, fd), id, RequestReadH(c, t, g, id, io))
  {
    SparesSelf(t, Own(c, fd), id);
    var data := Received(c.rb, io.recv);
    if c.client.RequestSt? {
      RequestProcessModest(AfterRequest(c, data), t, g, id, fd, io);
    }
    hide Spares, R.Parsed, Received, RequestProcess;
  }

  lemma RequestWriteModest(c: Conn, t: Table, g: Globals, id: nat, fd: int, io: Io)
    ensures Modest(c, t, Own(c, fd), id, RequestWriteH(c, t, g, io))
  {
    SparesSelf(t, Own(c, fd), id);
    var n := Sent(c.wb, io.send);
    if c.client.RequestSt? && n >= 0 {
      RepliedModest(Flushed(c, n), t, g, id, fd);
    }
    hide Spares, Sent, Replied;
  }

  lemma ReadModest(c: Conn, t: Table, g: Globals, id: nat, fd: int, io: Io)
    ensures Modest(c, t, Own(c, fd), id, ReadHandler(c, t, g, id, fd, io))
  {
    hide HelloReadH, AuthReadH, RequestReadH, CopyReadH, Spares;
    match c.phase {
      case HelloRead => HelloReadModest(c, t, g, id, fd, io);
      case AuthRead => AuthReadModest(c, t, g, id, fd, io);
      case RequestRead => RequestReadModest(c, t, g, id, fd, io);
      case Copy => CopyReadModest(c, t, g, id, fd, io);
      case _ =>
    }
  }

  lemma WriteModest(c: Conn, t: Table, g: Globals, id: nat, fd: int, io: Io)
    ensures Modest(c, t, Own(c, fd), id, WriteHandler(c, t, g, id, fd, io))
  {
    hide HelloWriteH, AuthWriteH, ConnectingH, RequestWriteH, CopyWriteH, Spares;
    match c.phase {
      case HelloWrite => HelloWriteModest(c, t, g, id, fd, io);
      case AuthWrite => AuthWriteModest(c, t, g, id, fd, io);
      case RequestConnecting => ConnectingModest(c, t, g, id, fd, io);
      case RequestWrite => RequestWriteModest(c, t, g, id, fd, io);
      case Copy => CopyWriteModest(c, t, g, id, fd, io);
      case _ =>
    }
  }

  lemma CloseSpares(t: Table, u: Table, fd: int, own: set<int>, id: nat)
    requires Spares(t, u, own, id) && (fd in own || fd !in t)
    ensures Spares(t, AfterUnregister(u, fd).table, own, id)
  {
  }

  lemma CloseModest(c: Conn, t: Table, own: set<int>, id: nat, o: Out, fd: int)
    requires Modest(c, t, own, id, o) && (fd in own || fd !in t)
    ensures Modest(c, t, own, id, CloseFd(o, fd))
    ensures CloseFd(o, fd).Out? ==> o.Out? && CloseFd(o, fd).c.originFd == o.c.originFd
  {
    if o.Out? {
      CloseSpares(t, o.t, fd, own, id);
    }
    hide Spares, AfterUnregister;
  }

  lemma JumpModest(c: Conn, t: Table, own: set<int>, id: nat, h: Out)
    requires Modest(c, t, own, id, h)
    ensures Modest(c, t, own, id, Jump(h))
  {
    hide Spares;
  }

  /** The engine adds nothing but the release of the connection's own descriptors. */
  lemma SettleModest(c: Conn, t: Table, own: set<int>, id: nat, h: Out)
    requires Modest(c, t, own, id, h) && c.clientFd in own
    ensures Modest(c, t, own, id, Settle(Jump(h)))
  {
    JumpModest(c, t, own, id, h);
    var o := Jump(h);
    if o.Out? && (o.ret == Done || o.ret == Error) {
      CloseModest(c, t, own, id, o, o.c.clientFd);
      var p := CloseFd(o, o.c.clientFd);
      if o.c.originFd == -1 {
        assert CloseFd(p, -1) == p;
      } else {
        CloseModest(c, t, own, id, p, o.c.originFd);
      }
    }
    hide Spares, CloseFd, Jump;
  }

  /** Whatever the state of the connection, its events touch no descriptor but its own. */
  lemma EventsAreModest(c: Conn, t: Table, g: Globals, id: nat, fd: int, io: Io)
    ensures Modest(c, t, Own(c, fd), id, OnRead(c, t, g, id, fd, io))
    ensures Modest(c, t, Own(c, fd), id, OnWrite(c, t, g, id, fd, io))
    ensures Modest(c, t, Own(c, fd), id, OnBlock(c, t, g, id, io))
    ensures Modest(c, t, Own(c, fd), id, FinishSpawn(c, t, g))
  {
    hide ReadHandler, WriteHandler, ResolvDoneH, Settle, Spares;
    var c1, g1, own := HandleFirst(c, g), FirstGlobals(c, g), Own(c, fd);
    ReadModest(c1, t, g1, id, fd, io);
    SettleModest(c, t, own, id, ReadHandler(c1, t, g1, id, fd, io));
    WriteModest(c1, t, g1, id, fd, io);
    SettleModest(c, t, own, id, WriteHandler(c1, t, g1, id, fd, io));
    ResolvDoneModest(c, t, g, id, fd, io);
    SettleModest(c, t, own, id, ResolvDoneH(c, t, g, id, io));
    InterestSpares(t, c.clientFd, NOOP, own, id);
    hide AfterSetInterest;
  }

  lemma ResolvDoneModest(c: Conn, t: Table, g: Globals, id: nat, fd: int, io: Io)
    ensures Modest(c, t, Own(c, fd), id, ResolvDoneH(c, t, g, id, io))
  {
    var d := Dispatched(c);
    ErrorWriteModest(d, t, g, R.HOST_UNREACHABLE, Own(c, fd), id);
    if d.resolution != [] {
      RequestConnectModest(d.(tried := 0, target := d.resolution[0]), t, g, io, Own(c, fd), id);
    }
    hide Spares, ErrorWrite, RequestConnect;
  }
}
