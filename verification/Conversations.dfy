/** Whole conversations, from the start of the proxy to the last byte the client is told. */
module Conversations {
  import opened Bytes
  import opened Buffers
  import opened Selector
  import opened Session
  import opened SessionInvariant
  import opened SessionEngine
  import opened World
  import opened WorldInvariant
  import opened WorldProofs
  import opened Guarantees
  import opened Witnesses
  import P = Progress
  import X = Reactions
  import T = Transfers
  import H = Hello
  import A = Auth
  import R = Request

  // ---------------------------------------------------------------- a user who is stored

  /** The method is sent, with the flag still up. */
  lemma FlushesUp(c: Conn, t: Table, g: Globals) returns (o: Out)
    requires Talking(c, Empty(RAW_BUFFER_SIZE), Queue(RAW_BUFFER_SIZE, 0, [5, 2])) && c.phase == HelloWrite
    requires c.client.HelloSt? && g.authOn && t == map[5 := Item(WRITE, 1)] && c.log.toClient == []
    ensures o == OnWrite(c, t, g, 1, 5, Sending(2, OptFails)) && o.Out? && o.g == g && o.t == map[5 := Item(READ, 1)]
    ensures o.c.phase == AuthRead && o.c.live && !o.c.spawned && o.c.clientFd == 5
    ensures o.c.rb == Empty(RAW_BUFFER_SIZE) && o.c.log.auth == [] && o.c.log.toClient == [5, 2]
  {
    o := OnWrite(c, t, g, 1, 5, Sending(2, OptFails));
    assert Flushed(c, 2).log.toClient == [5, 2];
    assert t[5 := Item(READ, 1)] == map[5 := Item(READ, 1)];
  }

  /** A proxy with one user, and a client asked for credentials. */
  lemma Challenged() returns (w: World, c: Conn)
    ensures One(w, c, map[5 := Item(READ, 1)], Globals(true, [ALICE], 0, 0, 0))
    ensures c.phase == AuthRead && c.clientFd == 5
    ensures c.rb == Empty(RAW_BUFFER_SIZE) && c.log.auth == [] && c.log.toClient == [5, 2]
  {
    hide One, OnRead, OnWrite;
    var w0 := Opens([ALICE]);
    var o1 := Offers(true, [ALICE], 2, []);
    var g := Globals(true, [ALICE], 0, 0, 0);
    var w1 := Reads(w0, NewConn(0, 5), map[5 := Item(READ, 1)], g, 5, Receiving([5, 1, 2] + [], NoSocket), o1);
    var o2 := FlushesUp(o1.c, o1.t, o1.g);
    w := Writes(w1, o1.c, o1.t, o1.g, 5, Sending(2, OptFails), o2);
    c := o2.c;
  }

  /** A queued reply can be sent. */
  lemma MayAnswer(w: World, k: nat, phase: Phase, io: Io)
    requires Reachable(w) && w.main.Idle? && X.At(w, k, phase, WRITE) && phase != RequestConnecting
    ensures X.MayWrite(w, k, w.conns[k].clientFd, io)
  {
    hide Reachable, ConnInv;
    ReachableConn(w, k);
    X.ClientAttached(w.conns[k], w.t, k + 1, w.g.authOn);
  }

  /** Credentials in one piece. */
  lemma InOnePiece(q: Queue, data: seq<byte>)
    requires q == Empty(RAW_BUFFER_SIZE) && 0 < |data| <= RAW_BUFFER_SIZE
    ensures P.Room(q, data) == |data| && P.Message([], q, data) == data + []
  {
    assert data[..|data|] == data;
  }

  /** What a connection that reads requests has been told shows whether it authenticated. */
  lemma ToldIsPrelude(c: Conn, t: Table, id: nat, authOn: bool)
    requires ConnInv(c, t, id, authOn) && c.phase == RequestRead
    ensures |c.log.toClient| == 4 <==> c.log.gate.Matched?
  {
    hide H.Parsed, A.Parsed, R.Parsed, H.Negotiated, Owned, Aimed, Admitted, ChosenRight, Spent;
    assert c.log.toClient + c.wb.bytes == c.log.toClient;
    assert c.log.replies + c.log.fromOrigin == c.log.replies;
  }

  /** The user is stored and sends what is stored: approved, and let through. */
  lemma AliceIsLetIn()
    ensures exists w :: Reachable(w) && |w.conns| == 1 && w.conns[0].live && w.conns[0].phase == RequestRead
                        && w.conns[0].log.toClient == [5, 2, 1, 0] && w.conns[0].log.gate.Matched?
  {
    var w, c := Challenged();
    var data := A.Encode([97], [98]);
    var io := Receiving(data, NoSocket);
    assert |data| == 5 && X.MayRead(w, 0, 5);
    hide Reachable, Next, X.MayRead, X.MayWrite, P.Message, P.Room, A.Encode, ConnInv, InterestOf, X.Said;
    InOnePiece(c.rb, data);
    X.CredentialsAreJudged(w, 0, io, [97], [98], []);
    assert w.g.users[0] == ALICE;
    T.ReadTellsNothing(w, 0, 5, io);
    var w1 := Next(w, Readable(5, io)).w;
    X.MayReadHas(w, 0, 5, io);
    NeverAborts(w, Readable(5, io));
    LeavesIdle(w, 5, io);
    ApprovalIsSent(w1);
  }

  lemma LeavesIdle(w: World, fd: int, io: Io)
    requires X.MayRead(w, 0, fd) && Next(w, Readable(fd, io)).Ok?
    requires X.At(Next(w, Readable(fd, io)).w, 0, AuthWrite, WRITE)
    ensures Next(w, Readable(fd, io)).w.main.Idle? && |Next(w, Readable(fd, io)).w.conns| == |w.conns|
  {
    hide Reachable, Next, X.MayRead, ConnInv, OnRead, InterestOf;
    X.ReadHappens(w, 0, fd, io);
    NotSpawned(Next(w, Readable(fd, io)).w);
  }

  lemma NotSpawned(w: World)
    requires Reachable(w) && |w.conns| > 0 && w.conns[0].live && w.conns[0].phase == AuthWrite
    ensures !w.conns[0].spawned
  {
    hide Reachable, ConnInv;
    ReachableConn(w, 0);
    NotCopied(w.conns[0], w.t, 1, w.g.authOn);
  }

  lemma ApprovalIsSent(w: World)
    requires Reachable(w) && w.main.Idle? && |w.conns| == 1 && X.At(w, 0, AuthWrite, WRITE)
    requires w.conns[0].wb.bytes == [1, 0] && w.conns[0].log.toClient == [5, 2]
    ensures exists w' :: Reachable(w') && |w'.conns| == 1 && w'.conns[0].live && w'.conns[0].phase == RequestRead
                         && w'.conns[0].log.toClient == [5, 2, 1, 0] && w'.conns[0].log.gate.Matched?
  {
    hide Reachable, Next, X.MayWrite, ConnInv, InterestOf, Enabled;
    var s := Sending(2, OptFails);
    MayAnswer(w, 0, AuthWrite, s);
    X.VerdictIsSent(w, 0, s);
    X.MayWriteHas(w, 0, w.conns[0].clientFd, s);
    NeverAborts(w, Writable(w.conns[0].clientFd, s));
    X.WriteHappens(w, 0, w.conns[0].clientFd, s);
    var w' := Next(w, Writable(w.conns[0].clientFd, s)).w;
    assert X.Said(w.conns[0]) == [5, 2, 1, 0];
    ReachableConn(w', 0);
    ToldIsPrelude(w'.conns[0], w'.t, 1, w'.g.authOn);
  }

  // ---------------------------------------------------------------- requests that fail

  /** Released, after these ten bytes. */
  ghost predicate ToldLast(w: World, reply: seq<byte>) {
    && Reachable(w) && |w.conns| == 1 && !w.conns[0].live
    && exists before :: w.conns[0].log.toClient == before + reply
  }

  lemma AnswerEnds(w: World, status: byte)
    requires Reachable(w) && w.main.Idle? && |w.conns| == 1 && X.Answers(w, 0, status) && status != 0
    ensures exists w' :: ToldLast(w', [5, status, 0, 1, 0, 0, 0, 0, 0, 0])
  {
    hide Reachable, Next, X.MayWrite, ConnInv, InterestOf, Enabled;
    var s := Sending(10, OptFails);
    X.AnswerIsTold(w, 0, status, s);
    MayAnswer(w, 0, RequestWrite, s);
    X.MayWriteHas(w, 0, w.conns[0].clientFd, s);
    NeverAborts(w, Writable(w.conns[0].clientFd, s));
    X.WriteHappens(w, 0, w.conns[0].clientFd, s);
    var w' := Next(w, Writable(w.conns[0].clientFd, s)).w;
    assert w'.conns[0].log.toClient == w.conns[0].log.toClient + [5, status, 0, 1, 0, 0, 0, 0, 0, 0];
    assert ToldLast(w', [5, status, 0, 1, 0, 0, 0, 0, 0, 0]);
  }

  /** A request in one piece, by a client that need not authenticate. */
  lemma Demands(cmd: byte, connect: ConnectIo) returns (w: World)
    requires connect.InProgress? ==> cmd != 1
    ensures Reachable(w) && w.main.Idle? && |w.conns| == 1
    ensures X.Answers(w, 0, if cmd != 1 then 7 else if connect.NoSocket? then 1 else P.FailureByte(connect.e))
  {
    var w0, c := Greeted([]);
    var data := R.Encode(cmd, 0, R.V4(TARGET), PORT);
    var io := Receiving(data, connect);
    assert |data| == 10 && X.MayRead(w0, 0, 5);
    hide Reachable, Next, X.MayRead, P.Message, P.Room, R.Encode, ConnInv, InterestOf, OnRead;
    InOnePiece(c.rb, data);
    X.RequestIsServed(w0, 0, io, cmd, 0, R.V4(TARGET), PORT, []);
    X.ReadHappens(w0, 0, 5, io);
    w := Next(w0, Readable(5, io)).w;
    AnsweringIsQuiet(w);
  }

  lemma AnsweringIsQuiet(w: World)
    requires Reachable(w) && |w.conns| > 0 && w.conns[0].live && w.conns[0].phase == RequestWrite
    ensures !w.conns[0].spawned
  {
    hide Reachable, ConnInv;
    ReachableConn(w, 0);
    NotCopied(w.conns[0], w.t, 1, w.g.authOn);
  }

  /** A connection that is refused, one that times out, and a command other than CONNECT. */
  lemma FailuresAreTold()
    ensures exists w :: ToldLast(w, [5, 5, 0, 1, 0, 0, 0, 0, 0, 0])
    ensures exists w :: ToldLast(w, [5, 6, 0, 1, 0, 0, 0, 0, 0, 0])
    ensures exists w :: ToldLast(w, [5, 7, 0, 1, 0, 0, 0, 0, 0, 0])
  {
    hide Reachable, X.Answers, ToldLast;
    var w5 := Demands(1, Session.Refused(R.ECONNREFUSED));
    AnswerEnds(w5, 5);
    var w6 := Demands(1, Session.Refused(R.ETIMEDOUT));
    AnswerEnds(w6, 6);
    var w7 := Demands(2, NoSocket);
    AnswerEnds(w7, 7);
  }

  /** A name that does not resolve. */
  lemma UnknownNameIsTold()
    ensures exists w :: ToldLast(w, [5, 4, 0, 1, 0, 0, 0, 0, 0, 0])
  {
    hide Reachable, OnRead, ToldLast, X.Answers;
    var w1, c1 := Greeted([]);
    var t, g := map[5 := Item(READ, 1)], Globals(false, [], 0, 0, 0);
    var o := Witnesses.Asks(c1, t, g);
    var w2 := Spawns(w1, c1, t, g, o);
    var w3 := Resolves(w2, []);
    var io := Receiving([], NoSocket);
    AttachedTo(w3.t);
    X.NameIsAnswered(w3, io);
    DrainNextEnabled(w3, io);
    NeverAborts(w3, DrainNext(io));
    var w4 := Next(w3, DrainNext(io)).w;
    NeverAborts(w4, DrainEnd);
    var w5 := Next(w4, DrainEnd).w;
    AnswersStay(w4, w5, 4);
    OneConn(w3, io);
    AnswerEnds(w5, 4);
  }

  lemma AnswersStay(w: World, w': World, status: byte)
    requires X.Answers(w, 0, status) && w'.conns == w.conns && w'.t == w.t
    ensures X.Answers(w', 0, status)
  {
  }

  lemma OneConn(w: World, io: Io)
    requires Next(w, DrainNext(io)).Ok?
    ensures |Next(w, DrainNext(io)).w.conns| == |w.conns|
  {
    hide OnBlock, Release;
  }
}
