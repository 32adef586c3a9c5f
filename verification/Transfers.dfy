/**
 * What an event moves between a peer and a buffer: as much as there is room for, or as the kernel takes,
 * and no more.
 */
module Transfers {
  import opened Bytes
  import opened Buffers
  import opened Selector
  import opened Session
  import opened SessionInvariant
  import opened SessionProofs
  import opened SessionEngine
  import opened World
  import opened WorldInvariant
  import opened WorldProofs
  import opened Guarantees
  import opened Progress
  import opened Reactions
  import H = Hello
  import A = Auth
  import R = Request

  /** The four streams of a connection. */
  datatype Traffic = Traffic(fromClient: seq<byte>, toClient: seq<byte>, fromOrigin: seq<byte>, toOrigin: seq<byte>)

  function TrafficOf(l: Log): Traffic {
    Traffic(l.fromClient, l.toClient, l.fromOrigin, l.toOrigin)
  }

  /** The traffic after `io` is offered to the connection on `fd`. */
  function WithRead(c: Conn, fd: int, io: Io): Traffic {
    var tr := TrafficOf(c.log);
    if fd == c.clientFd then tr.(fromClient := tr.fromClient + io.recv[..Room(c.rb, io.recv)])
    else tr.(fromOrigin := tr.fromOrigin + io.recv[..Room(c.wb, io.recv)])
  }

  function WithWrite(c: Conn, fd: int, io: Io): Traffic {
    var tr := TrafficOf(c.log);
    if fd == c.clientFd then tr.(toClient := tr.toClient + c.wb.bytes[..Taken(c.wb, io.send)])
    else if c.phase == Copy then tr.(toOrigin := tr.toOrigin + c.rb.bytes[..Taken(c.rb, io.send)])
    else tr
  }

  lemma EngineMovesNothing(h: Out)
    ensures Settle(Jump(h)).Out? ==> h.Out? && TrafficOf(Settle(Jump(h)).c.log) == TrafficOf(h.c.log)
  {
    hide AfterUnregister;
  }

  lemma ErrorMovesNothing(c: Conn, t: Table, g: Globals, status: byte)
    ensures var o := ErrorWrite(c, t, g, status); o.Out? ==> TrafficOf(o.c.log) == TrafficOf(c.log)
  {
    hide AfterSetInterest;
  }

  lemma AwaitingMovesNothing(c: Conn, t: Table, g: Globals, id: nat, fd: int)
    ensures var o := Awaiting(c, t, g, id, fd); o.Out? ==> TrafficOf(o.c.log) == TrafficOf(c.log)
  {
    hide AfterSetInterest, AfterRegister, ErrorWrite;
    if c.client.RequestSt? {
      var s1 := AfterSetInterest(t, c.clientFd, NOOP);
      ErrorMovesNothing(c.(originFd := -1), s1.table, g, c.client.status);
      ErrorMovesNothing(c.(originFd := -1), AfterRegister(s1.table, fd, WRITE, id).table, g, c.client.status);
    }
  }

  lemma ConnectMovesNothing(c: Conn, t: Table, g: Globals, id: nat, io: Io)
    ensures var o := RequestConnect(c, t, g, id, io); o.Out? ==> TrafficOf(o.c.log) == TrafficOf(c.log)
  {
    hide AfterUnregister, ErrorWrite, Awaiting, R.ErrnoToSocks;
    var (d, u) := if c.phase == RequestConnecting then DropOrigin(c, t) else (c, t);
    match io.connect {
      case NoSocket => ErrorMovesNothing(d.(originFd := -1), u, g, R.GENERAL_FAILURE);
      case Refused(e) => ErrorMovesNothing(d.(originFd := -1), u, g, R.ErrnoToSocks(e));
      case InProgress(fd) => AwaitingMovesNothing(d, u, g, id, fd);
    }
  }

  lemma ProcessMovesNothing(c: Conn, t: Table, g: Globals, id: nat, io: Io)
    ensures var o := RequestProcess(c, t, g, id, io); o.Out? ==> TrafficOf(o.c.log) == TrafficOf(c.log)
  {
    hide ErrorWrite, RequestConnect, TargetOf;
    ErrorMovesNothing(c, t, g, R.COMMAND_NOT_SUPPORTED);
    ErrorMovesNothing(c, t, g, R.ADDRESS_NOT_SUPPORTED);
    ErrorMovesNothing(c, t, g, R.GENERAL_FAILURE);
    if c.client.RequestSt? {
      ConnectMovesNothing(c.(target := TargetOf(c.client.req)), t, g, id, io);
    }
  }

  lemma ConnectingMovesNothing(c: Conn, t: Table, g: Globals, id: nat, fd: int, io: Io)
    ensures var o := ConnectingH(c, t, g, id, fd, io); o.Out? ==> TrafficOf(o.c.log) == TrafficOf(c.log)
  {
    hide AfterSetInterest, RequestConnect;
    if c.client.RequestSt? && WillRetry(c, io) {
      ConnectMovesNothing(c.(tried := c.tried + 1, target := c.resolution[c.tried + 1]), t, g, id, io);
    }
  }

  lemma HelloReadMoves(c: Conn, t: Table, g: Globals, io: Io)
    ensures var o := HelloReadH(c, t, g, c.clientFd, io); o.Out? ==> TrafficOf(o.c.log) == WithRead(c, c.clientFd, io)
  {
    hide AfterSetInterest, H.Parsed, Received, H.IsDone;
    ReceivedIs(c.rb, io.recv);
  }

  lemma AuthReadMoves(c: Conn, t: Table, g: Globals, io: Io)
    ensures var o := AuthReadH(c, t, g, c.clientFd, io); o.Out? ==> TrafficOf(o.c.log) == WithRead(c, c.clientFd, io)
  {
    hide AfterSetInterest, A.Parsed, Received, A.IsDone, FindUser;
    ReceivedIs(c.rb, io.recv);
  }

  lemma RequestReadMoves(c: Conn, t: Table, g: Globals, id: nat, io: Io)
    ensures var o := RequestReadH(c, t, g, id, io); o.Out? ==> TrafficOf(o.c.log) == WithRead(c, c.clientFd, io)
  {
    hide R.Parsed, Received, R.IsDone, RequestProcess;
    ReceivedIs(c.rb, io.recv);
    if c.client.RequestSt? {
      ProcessMovesNothing(AfterRequest(c, Received(c.rb, io.recv)), t, g, id, io);
    }
  }

  lemma CopyReadMoves(c: Conn, t: Table, g: Globals, fd: int, io: Io)
    requires fd == c.clientFd || fd == c.originFd
    ensures var o := CopyReadH(c, t, g, fd, io); o.Out? ==> TrafficOf(o.c.log) == WithRead(c, fd, io)
  {
    hide AfterSetInterest, Received;
    ReceivedIs(c.rb, io.recv);
    ReceivedIs(c.wb, io.recv);
  }

  lemma ReadMoves(c: Conn, t: Table, g: Globals, id: nat, fd: int, io: Io)
    requires fd == c.clientFd || (c.phase == Copy && fd == c.originFd)
    ensures var o := OnRead(c, t, g, id, fd, io); o.Out? ==> TrafficOf(o.c.log) == WithRead(c, fd, io)
  {
    hide HelloReadH, AuthReadH, RequestReadH, CopyReadH, Settle, Jump, WithRead;
    var d, g1 := HandleFirst(c, g), FirstGlobals(c, g);
    EngineMovesNothing(ReadHandler(d, t, g1, id, fd, io));
    SameTraffic(c, g, fd, io);
    hide HandleFirst, FirstGlobals, TrafficOf;
    match d.phase {
      case HelloRead => HelloReadMoves(d, t, g1, io);
      case AuthRead => AuthReadMoves(d, t, g1, io);
      case RequestRead => RequestReadMoves(d, t, g1, id, io);
      case Copy => CopyReadMoves(d, t, g1, fd, io);
      case _ =>
    }
  }

  lemma SameTraffic(c: Conn, g: Globals, fd: int, io: Io)
    ensures var d := HandleFirst(c, g);
            && WithRead(d, fd, io) == WithRead(c, fd, io) && d.clientFd == c.clientFd && d.originFd == c.originFd
            && (c.phase != Fresh ==> d == c) && (d.phase == Copy <==> c.phase == Copy)
  {
  }

  lemma SentIs(q: Queue, willing: int)
    ensures Taken(q, willing) == if Sent(q, willing) < 0 then 0 else Sent(q, willing)
  {
  }

  lemma HandshakeWriteMoves(c: Conn, t: Table, g: Globals, io: Io)
    ensures var o := HelloWriteH(c, t, g, c.clientFd, io); o.Out? ==> TrafficOf(o.c.log) == WithWrite(c, c.clientFd, io)
    ensures var o := AuthWriteH(c, t, g, c.clientFd, io); o.Out? ==> TrafficOf(o.c.log) == WithWrite(c, c.clientFd, io)
    ensures var o := RequestWriteH(c, t, g, io); o.Out? ==> TrafficOf(o.c.log) == WithWrite(c, c.clientFd, io)
  {
    hide AfterSetInterest, Sent, Taken;
    SentIs(c.wb, io.send);
  }

  lemma CopyWriteMoves(c: Conn, t: Table, g: Globals, fd: int, io: Io)
    requires (fd == c.clientFd || fd == c.originFd) && c.phase == Copy
    ensures var o := CopyWriteH(c, t, g, fd, io); o.Out? ==> TrafficOf(o.c.log) == WithWrite(c, fd, io)
  {
    hide AfterSetInterest, Sent, Taken, Counted;
    SentIs(c.wb, io.send);
    SentIs(c.rb, io.send);
  }

  lemma WriteMoves(c: Conn, t: Table, g: Globals, id: nat, fd: int, io: Io)
    requires c.phase != Fresh && (fd == c.clientFd || fd == c.originFd)
    requires c.phase in {HelloWrite, AuthWrite, RequestWrite} ==> fd == c.clientFd
    requires c.phase == RequestConnecting ==> fd != c.clientFd
    ensures var o := OnWrite(c, t, g, id, fd, io); o.Out? ==> TrafficOf(o.c.log) == WithWrite(c, fd, io)
  {
    hide HelloWriteH, AuthWriteH, RequestWriteH, ConnectingH, CopyWriteH, Settle, Jump, TrafficOf;
    EngineMovesNothing(WriteHandler(c, t, g, id, fd, io));
    assert HandleFirst(c, g) == c && FirstGlobals(c, g) == g;
    match c.phase {
      case RequestConnecting => ConnectingMovesNothing(c, t, g, id, fd, io);
      case Copy => CopyWriteMoves(c, t, g, fd, io);
      case _ => HandshakeWriteMoves(c, t, g, io);
    }
  }

  /** Nothing else in the world changed: no other connection, no queued job and no user. */
  ghost predicate OnlyAt(w: World, k: nat, w': World) {
    && |w'.conns| == |w.conns| && (forall j :: 0 <= j < |w.conns| && j != k ==> w'.conns[j] == w.conns[j])
    && w'.jobs == w.jobs && w'.g.users == w.g.users
  }

  lemma EventOnlyAt(w: World, s: Step, k: nat, o: Out, main: Main)
    requires IsEvent(w, s, k, o, main)
    ensures OnlyAt(w, k, Next(w, s).w)
  {
    hide Next, Release;
  }

  /** A read event takes from its end all there is room for, and moves nothing else. */
  lemma ReadTransfers(w: World, k: nat, fd: int, io: Io)
    requires MayRead(w, k, fd)
    ensures var r := Next(w, Readable(fd, io));
            && r.Ok? && OnlyAt(w, k, r.w) && TrafficOf(r.w.conns[k].log) == WithRead(w.conns[k], fd, io)
  {
    hide Reachable, ConnInv, OnRead, Next, TrafficOf, WithRead, OnlyAt, Inv;
    ReadHappens(w, k, fd, io);
    ReadableWhere(w.conns[k], w.t, k + 1, w.g.authOn, fd);
    ReadMoves(w.conns[k], w.t, w.g, k + 1, fd, io);
    MayReadHas(w, k, fd, io);
    ReachableInv(w);
    var j, o := ReadableEvent(w, fd, io);
    EventOnlyAt(w, Readable(fd, io), j, o, Idle);
    hide Enabled;
  }

  lemma ReadTellsNothing(w: World, k: nat, fd: int, io: Io)
    requires MayRead(w, k, fd)
    ensures Next(w, Readable(fd, io)).Ok? && |Next(w, Readable(fd, io)).w.conns| == |w.conns|
    ensures Next(w, Readable(fd, io)).w.conns[k].log.toClient == w.conns[k].log.toClient
  {
    hide MayRead, Next, Room;
    ReadTransfers(w, k, fd, io);
  }

  /** A write event sends to its end all that the kernel takes of what is buffered for it, and moves nothing else. */
  lemma WriteTransfers(w: World, k: nat, fd: int, io: Io)
    requires MayWrite(w, k, fd, io)
    ensures var r := Next(w, Writable(fd, io));
            && r.Ok? && OnlyAt(w, k, r.w) && TrafficOf(r.w.conns[k].log) == WithWrite(w.conns[k], fd, io)
  {
    hide Reachable, ConnInv, OnWrite, Next, TrafficOf, WithWrite, OnlyAt, Inv, RetryWorks;
    WriteHappens(w, k, fd, io);
    var c := w.conns[k];
    WritableWhere(c, w.t, k + 1, w.g.authOn, fd);
    EndsDiffer(c, w.t, k + 1, w.g.authOn);
    WriteMoves(c, w.t, w.g, k + 1, fd, io);
    MayWriteHas(w, k, fd, io);
    ReachableInv(w);
    var j, o := WritableEvent(w, fd, io);
    EventOnlyAt(w, Writable(fd, io), j, o, Idle);
    hide Enabled;
  }

  lemma EndsDiffer(c: Conn, t: Table, id: nat, authOn: bool)
    requires ConnInv(c, t, id, authOn)
    ensures c.clientFd != c.originFd
  {
    hide Common, PhaseInv;
    assert Owned(c.clientFd, c.originFd, c.references, t, id);
  }
}
