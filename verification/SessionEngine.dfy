/** One event on one connection, from the selector callback to the release of its object. */
module SessionEngine {
  import opened Bytes
  import opened Buffers
  import opened Selector
  import opened Session
  import opened SessionInvariant
  import opened SessionProofs
  import H = Hello
  import A = Auth
  import R = Request

  function Bit(b: bool): nat {
    if b then 1 else 0
  }

  predicate InCopy(c: Conn) {
    c.live && c.phase == Copy
  }

  /** Bytes relayed, in both directions. */
  function Delivered(c: Conn): int {
    if c.log.copied then Relayed(c) - |c.log.replies| else 0
  }

  /** The event did not abort, kept the connection good or released it, and moved nothing else. */
  ghost predicate Kept(o: Out, t: Table, id: nat) {
    && o.Out? && Frame(t, o.t, id)
    && if o.c.live then ConnInv(o.c, o.t, id, o.g.authOn)
       else
         && (o.c.phase == Done || o.c.phase == Error) && Conserved(o.c) && Ended(o.c)
         && forall fd :: fd in o.t ==> o.t[fd].data != id
  }

  /** The statistics moved exactly as the connection did, and the history grew by what happened. */
  ghost predicate Tallied(c: Conn, g: Globals, o: Out) {
    && o.Out? && o.g.users == g.users && o.c.obj == c.obj && o.c.clientFd == c.clientFd
    && Opened(c.log.gate, o.c.log.gate, o.g) && Hopped(c, o.c) && (o.c.spawned ==> o.c.live)
    && (o.g.authOn != g.authOn ==> c.phase == Fresh && g.users == [] && !o.g.authOn)
    && Moved(g.historic, o.g.historic, Bit(o.c.log.copied) - Bit(c.log.copied))
    && Moved(g.current, o.g.current, Bit(InCopy(o.c)) - Bit(InCopy(c)))
    && Moved(g.transferred, o.g.transferred, Delivered(o.c) - Delivered(c))
  }

  /** A 32-bit counter moved by `d`, wrapping around. */
  ghost predicate Moved(x: nat, x': nat, d: int) {
    x' == (x + d) % U32
  }

  lemma Counters(x: nat, n: nat)
    requires x < U32
    ensures Moved(x, x, 0) && Moved(x, (x + n) % U32, n) && Moved(x, (x + U32 - 1) % U32, -1)
  {
  }

  lemma Unmoved(g: Globals)
    requires Small(g)
    ensures Moved(g.historic, g.historic, 0) && Moved(g.current, g.current, 0)
    ensures Moved(g.transferred, g.transferred, 0)
    ensures Moved(g.historic, (g.historic + 1) % U32, 1) && Moved(g.current, (g.current + 1) % U32, 1)
    ensures Moved(g.current, (g.current + U32 - 1) % U32, -1)
  {
    Counters(g.historic, 1);
    Counters(g.current, 1);
    Counters(g.transferred, 0);
  }

  ghost predicate Small(g: Globals) {
    g.historic < U32 && g.current < U32 && g.transferred < U32
  }

  lemma SettleKeeps(o: Out, t: Table, id: nat)
    requires Jumped(o, t, id)
    ensures Kept(Settle(o), t, id) && Settle(o).Out?
    ensures var s := Settle(o); s.g == o.g && s.ret == o.ret && s.c.log == o.c.log && s.c.phase == o.c.phase
    ensures var s := Settle(o); s.c.obj == o.c.obj && s.c.clientFd == o.c.clientFd
    ensures var s := Settle(o); s.c.live == !(o.ret == Done || o.ret == Error) && s.c.spawned == o.c.spawned
  {
    hide PhaseInv, Carries, Spent, Owned, CloseFd;
    if o.ret == Done || o.ret == Error {
      SettleReleases(o, id);
      FrameChains(t, o.t, Settle(o).t, id);
    }
  }

  lemma JumpKeepsHistory(h: Out)
    requires Jump(h).Out?
    ensures var j := Jump(h);
            && h.Out? && j.g == h.g && j.ret == h.ret == j.c.phase && j.c.log == h.c.log
            && j.c.obj == h.c.obj && j.c.clientFd == h.c.clientFd && j.c.spawned == h.c.spawned
  {
  }

  /** Where the engine lands: in the state the handler returned, whatever it then releases. */
  lemma JumpLands(h: Out)
    ensures Jump(h).Out? ==> Jump(h).c.phase == Jump(h).ret
  {
    hide Arrive;
    if h.Out? {
      assert Arrive(h.c.(phase := h.ret)).phase == h.ret by { ArriveStays(h.c.(phase := h.ret)); }
    }
  }

  lemma ArriveStays(c: Conn)
    ensures Arrive(c).phase == c.phase
  {
  }

  lemma SettleStays(o: Out)
    ensures Settle(o).Out? ==> o.Out? && Settle(o).c.phase == o.c.phase
    ensures Settle(o).Out? && o.ret != Done && o.ret != Error ==> Settle(o) == o
  {
    hide AfterUnregister;
  }

  /** An event of the handshake keeps the connection and leaves the statistics alone. */
  lemma HandshakeKept(c: Conn, g: Globals, h: Out, t: Table, id: nat)
    requires Jumped(Jump(h), t, id) && Steady(c, g, h) && Small(g) && c.phase != Copy && !c.log.copied && !c.spawned
    ensures Kept(Settle(Jump(h)), t, id) && Tallied(c, g, Settle(Jump(h)))
  {
    JumpKeepsHistory(h);
    JumpedCopies(Jump(h), t, id);
    Unmoved(g);
    SettleKeeps(Jump(h), t, id);
    hide Jumped, Kept, Settle, Moved, Jump;
  }

  lemma JumpedCopies(o: Out, t: Table, id: nat)
    requires Jumped(o, t, id)
    ensures o.ret == Copy ==> o.c.log.copied
  {
    hide H.Parsed, A.Parsed, R.Parsed, Owned, Common, Aimed, Admitted;
  }

  lemma FirstKeeps(c: Conn, t: Table, g: Globals, id: nat)
    requires ConnInv(c, t, id, g.authOn) && c.phase == Fresh
    ensures ConnInv(HandleFirst(c, g), t, id, FirstGlobals(c, g).authOn)
  {
    ParsersStart();
    hide H.Parsed, A.Parsed, R.Parsed, Owned;
  }

  /** Only the handlers a state has can be called: which descriptor may be readable, and in which states. */
  lemma ReadableWhere(c: Conn, t: Table, id: nat, authOn: bool, fd: int)
    requires ConnInv(c, t, id, authOn) && fd in t && t[fd].data == id && t[fd].interest.read
    ensures fd == c.clientFd || (c.phase == Copy && fd == c.originFd)
    ensures c.phase == Copy || (fd == c.clientFd && c.phase in {Fresh, HelloRead, AuthRead, RequestRead})
  {
    hide H.Parsed, A.Parsed, R.Parsed, Common, Aimed, Admitted;
    assert fd == c.clientFd || fd == c.originFd;
  }

  lemma WritableWhere(c: Conn, t: Table, id: nat, authOn: bool, fd: int)
    requires ConnInv(c, t, id, authOn) && fd in t && t[fd].data == id && t[fd].interest.write
    ensures fd == c.clientFd || fd == c.originFd
    ensures c.phase == Copy || (fd == c.clientFd && c.phase in {HelloWrite, AuthWrite, RequestWrite})
            || (fd == c.originFd && c.phase == RequestConnecting)
  {
    hide H.Parsed, A.Parsed, R.Parsed, Common, Aimed, Admitted;
    assert fd == c.clientFd || fd == c.originFd;
  }

  /** The tally of a copy step that relays `n` bytes. */
  lemma CopyTally(c: Conn, g: Globals, g1: Globals, n: nat, h: Out, t: Table, id: nat)
    requires c.live && c.phase == Copy && c.log.copied && !c.spawned && Small(g)
    requires Jumped(h, t, id) && (h.ret == Copy || h.ret == Done) && SameRelay(c, h.c) && Relayed(h.c) == Relayed(c) + n
    requires g1 == g.(transferred := g1.transferred) && Moved(g.transferred, g1.transferred, n)
    requires h.g == if h.ret == Done then g1.(current := (g1.current + U32 - 1) % U32) else g1
    ensures Tallied(c, g, Settle(h))
  {
    Unmoved(g);
    hide Kept, Settle, Moved, Relayed, Registered, ConnInv, Frame;
    SettleKeeps(h, t, id);
    assert h.c.phase == h.ret;
    hide Jumped;
  }

  lemma RelayLives(c: Conn, t: Table, id: nat, authOn: bool)
    requires ConnInv(c, t, id, authOn) && c.phase == Copy
    ensures c.live && c.log.copied && !c.spawned
  {
  }

  lemma ReadCopyKeeps(c: Conn, t: Table, g: Globals, id: nat, fd: int, io: Io)
    requires ConnInv(c, t, id, g.authOn) && c.phase == Copy && Small(g) && (fd == c.clientFd || fd == c.originFd)
    ensures var o := Settle(Jump(CopyReadH(c, t, g, fd, io))); Kept(o, t, id) && Tallied(c, g, o)
  {
    hide ConnInv, Kept, Settle, Jumped, CopyReadH, Tallied, Moved;
    RelayLives(c, t, id, g.authOn);
    CopyReadKeeps(c, t, g, id, fd, io);
    Unmoved(g);
    var h := Jump(CopyReadH(c, t, g, fd, io));
    SettleKeeps(h, t, id);
    CopyTally(c, g, g, 0, h, t, id);
  }

  lemma WriteCopyKeeps(c: Conn, t: Table, g: Globals, id: nat, fd: int, io: Io)
    requires ConnInv(c, t, id, g.authOn) && c.phase == Copy && Small(g) && (fd == c.clientFd || fd == c.originFd)
    ensures var o := Settle(Jump(CopyWriteH(c, t, g, fd, io))); Kept(o, t, id) && Tallied(c, g, o)
  {
    hide ConnInv, Kept, Settle, Jumped, CopyWriteH, Tallied, Moved, Sent;
    RelayLives(c, t, id, g.authOn);
    CopyWriteKeeps(c, t, g, id, fd, io);
    Unmoved(g);
    var n := Sent(if fd == c.clientFd then c.wb else c.rb, io.send);
    if n >= 0 {
      Counters(g.transferred, n);
    }
    var h := Jump(CopyWriteH(c, t, g, fd, io));
    SettleKeeps(h, t, id);
    CopyTally(c, g, Counted(g, n), if n < 0 then 0 else n, h, t, id);
  }

  /** On entering the relay every reply has been sent and nothing has been relayed yet. */
  lemma EnterCopyKeeps(c: Conn, t: Table, g: Globals, id: nat, io: Io)
    requires ConnInv(c, t, id, g.authOn) && c.phase == RequestWrite && Small(g)
    ensures var o := Settle(Jump(RequestWriteH(c, t, g, io))); Kept(o, t, id) && Tallied(c, g, o)
  {
    hide ConnInv, Kept, Settle, Jumped, RequestWriteH, Jump, Moved;
    RequestWriteKeeps(c, t, g, id, io);
    NotYetRelayed(c, t, g, id, io);
    Unmoved(g);
    var h := Jump(RequestWriteH(c, t, g, io));
    JumpedOut(h, t, id);
    SettleKeeps(h, t, id);
  }

  lemma JumpedOut(o: Out, t: Table, id: nat)
    requires Jumped(o, t, id)
    ensures o.Out? && o.c.phase == o.ret
  {
    hide ConnInv;
  }

  lemma NotYetRelayed(c: Conn, t: Table, g: Globals, id: nat, io: Io)
    requires ConnInv(c, t, id, g.authOn) && c.phase == RequestWrite
    ensures !c.log.copied && c.live && !c.spawned
    ensures var h := Jump(RequestWriteH(c, t, g, io));
            h.Out? ==> h.c.obj == c.obj && h.c.clientFd == c.clientFd && h.c.phase == h.ret
                       && h.c.log.copied == (h.ret == Copy) && Delivered(h.c) == 0 && !h.c.spawned
                       && h.c.log.gate == c.log.gate && h.c.log.spawns == c.log.spawns
                       && h.c.log.dispatches == c.log.dispatches
  {
    hide H.Parsed, A.Parsed, R.Parsed, Owned, Aimed, Admitted, Prelude, AfterSetInterest;
  }

  lemma NotCopied(c: Conn, t: Table, id: nat, authOn: bool)
    requires ConnInv(c, t, id, authOn) && c.phase != Copy
    ensures !c.log.copied && c.live && (c.phase != RequestRead ==> !c.spawned)
  {
  }

  lemma FirstTally(c: Conn, g: Globals, o: Out)
    requires c.phase == Fresh && Tallied(HandleFirst(c, g), FirstGlobals(c, g), o)
    ensures Tallied(c, g, o)
  {
    hide Moved;
  }

  lemma OnReadFrom(c: Conn, t: Table, g: Globals, id: nat, fd: int, io: Io)
    requires ConnInv(c, t, id, g.authOn) && !c.spawned && Small(g)
    requires fd == c.clientFd || (c.phase == Copy && fd == c.originFd)
    requires c.phase == Copy || (fd == c.clientFd && c.phase in {HelloRead, AuthRead, RequestRead})
    ensures var o := Settle(Jump(ReadHandler(c, t, g, id, fd, io))); Kept(o, t, id) && Tallied(c, g, o)
  {
    hide ConnInv, Kept, Tallied, Settle, Jumped, Jump, Steady, Small;
    if c.phase == Copy {
      ReadCopyKeeps(c, t, g, id, fd, io);
    } else {
      NotCopied(c, t, id, g.authOn);
      match c.phase {
        case HelloRead => HelloReadKeeps(c, t, g, id, io);
        case AuthRead => AuthReadKeeps(c, t, g, id, io);
        case RequestRead => RequestReadKeeps(c, t, g, id, io);
        case _ =>
      }
      HandshakeKept(c, g, ReadHandler(c, t, g, id, fd, io), t, id);
    }
  }

  /** No event aborts, and every event keeps the invariant: readable. */
  lemma OnReadKeeps(c: Conn, t: Table, g: Globals, id: nat, fd: int, io: Io)
    requires ConnInv(c, t, id, g.authOn) && !c.spawned && Small(g)
    requires fd in t && t[fd].data == id && t[fd].interest.read
    ensures var o := OnRead(c, t, g, id, fd, io); Kept(o, t, id) && Tallied(c, g, o)
  {
    hide ConnInv, Kept, Tallied, Settle, Jump, ReadHandler;
    ReadableWhere(c, t, id, g.authOn, fd);
    if c.phase == Fresh {
      FirstKeeps(c, t, g, id);
      OnReadFrom(HandleFirst(c, g), t, FirstGlobals(c, g), id, fd, io);
      FirstTally(c, g, OnRead(c, t, g, id, fd, io));
    } else {
      OnReadFrom(c, t, g, id, fd, io);
    }
  }

  /** Writable; a retry is assumed to get its descriptor. */
  lemma OnWriteKeeps(c: Conn, t: Table, g: Globals, id: nat, fd: int, io: Io)
    requires ConnInv(c, t, id, g.authOn) && Small(g)
    requires fd in t && t[fd].data == id && t[fd].interest.write
    requires c.phase == RequestConnecting && WillRetry(c, io) ==> RetryReaches(c, t, io)
    ensures var o := OnWrite(c, t, g, id, fd, io); Kept(o, t, id) && Tallied(c, g, o)
  {
    hide ConnInv, Kept, Tallied, Settle, Jumped, Jump, Steady, Small, WillRetry, RetryReaches;
    WritableWhere(c, t, id, g.authOn, fd);
    if c.phase == Copy {
      WriteCopyKeeps(c, t, g, id, fd, io);
    } else {
      NotCopied(c, t, id, g.authOn);
      match c.phase {
        case HelloWrite =>
          HelloWriteKeeps(c, t, g, id, io);
          HandshakeKept(c, g, HelloWriteH(c, t, g, fd, io), t, id);
        case AuthWrite =>
          AuthWriteKeeps(c, t, g, id, io);
          HandshakeKept(c, g, AuthWriteH(c, t, g, fd, io), t, id);
        case RequestConnecting =>
          ConnectingKeeps(c, t, g, id, io);
          HandshakeKept(c, g, ConnectingH(c, t, g, id, fd, io), t, id);
        case RequestWrite =>
          EnterCopyKeeps(c, t, g, id, io);
        case _ =>
      }
    }
  }

  /** A resolution is ready. */
  lemma OnBlockKeeps(c: Conn, t: Table, g: Globals, id: nat, io: Io)
    requires ConnInv(c, t, id, g.authOn) && c.phase == RequestResolv && Small(g)
    ensures var o := OnBlock(c, t, g, id, io); Kept(o, t, id) && Tallied(Dispatched(c), g, o)
  {
    hide ConnInv, Kept, Tallied, Settle, Jumped, Jump, Steady, Small;
    NotCopied(c, t, id, g.authOn);
    ResolvDoneKeeps(c, t, g, id, io);
    HandshakeKept(Dispatched(c), g, ResolvDoneH(c, t, g, id, io), t, id);
  }

  lemma OnSpawnedKeeps(c: Conn, t: Table, g: Globals, id: nat)
    requires ConnInv(c, t, id, g.authOn) && c.spawned && Small(g)
    ensures var o := FinishSpawn(c, t, g); Kept(o, t, id) && Tallied(c, g, o)
    ensures var d := FinishSpawn(c, t, g).c;
            && d.live && d.phase == RequestResolv && !d.spawned
            && d.log.spawns == c.log.spawns
  {
    FinishSpawnKeeps(c, t, g, id);
    NotCopied(c, t, id, g.authOn);
    Unmoved(g);
    hide PhaseInv, Registered, Streams, Moved, AfterSetInterest;
  }

  /** The DNS thread stores its answer while no handler looks at the connection. */
  lemma AnswerKeeps(c: Conn, t: Table, g: Globals, id: nat, found: seq<Addr>)
    requires ConnInv(c, t, id, g.authOn) && InFlight(c) && Small(g)
    ensures var o := Out(Answered(c, found), t, g, c.phase); Kept(o, t, id) && Tallied(c, g, o)
  {
    FrameSelf(t, id);
    Unmoved(g);
    hide H.Parsed, A.Parsed, R.Parsed, Owned, R.IsDone, Moved, Frame;
  }

  /** A connection just accepted is good. */
  lemma NewConnKeeps(obj: nat, fd: int, t: Table, id: nat, authOn: bool)
    requires !InvalidFd(fd) && fd !in t && forall k :: k in t ==> t[k].data != id
    ensures var t' := t[fd := Item(READ, id)]; ConnInv(NewConn(obj, fd), t', id, authOn) && Frame(t, t', id)
  {
    ParsersStart();
    var c := NewConn(obj, fd);
    assert Spent(c.log) == [] && c.log.replies + c.log.fromOrigin == [];
    hide H.Parsed, A.Parsed, R.Parsed;
  }

  /** Another connection turning authentication off takes nothing away. */
  lemma AuthFallKeeps(c: Conn, t: Table, id: nat)
    requires ConnInv(c, t, id, true)
    ensures ConnInv(c, t, id, false)
  {
    hide H.Parsed, A.Parsed, R.Parsed, Owned, Common;
  }

  /** An event elsewhere, framed by the table, takes nothing away. */
  lemma FrameKeeps(c: Conn, t: Table, t': Table, id: nat, other: nat, authOn: bool)
    requires ConnInv(c, t, id, authOn) && Frame(t, t', other) && id != other
    ensures ConnInv(c, t', id, authOn)
  {
    assert InterestOf(c.clientFd, t') == InterestOf(c.clientFd, t);
    assert InterestOf(c.originFd, t') == InterestOf(c.originFd, t);
    hide PhaseInv, Common;
  }
}
