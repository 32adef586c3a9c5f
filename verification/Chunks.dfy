/**
 * How TCP splits what a client sends in the handshake does not matter: whatever the chunks, the proxy
 * ends in the same world, up to where in its array the leftover bytes lie.
 */
module Chunks {
  import opened Bytes
  import opened Buffers
  import opened Incremental
  import opened Selector
  import opened Session
  import opened SessionInvariant
  import opened SessionEngine
  import opened World
  import opened WorldInvariant
  import opened WorldProofs
  import opened Guarantees
  import opened Completeness
  import opened Progress
  import opened Reactions
  import H = Hello
  import A = Auth
  import R = Request

  // ---------------------------------------------------------------- connections alike

  /** The same but for the place of the unread bytes in their array. */
  predicate Alike(c: Conn, d: Conn) {
    c == d.(rb := c.rb) && c.rb.bytes == d.rb.bytes
  }

  predicate OutsAlike(o: Out, p: Out) {
    if o.Abort? || p.Abort? then o == p else Alike(o.c, p.c) && o.t == p.t && o.g == p.g && o.ret == p.ret
  }

  /** The state reads a message, and has the parser of it. */
  predicate Reads(c: Conn) {
    match c.phase
    case HelloRead => c.client.HelloSt?
    case AuthRead => c.client.AuthSt?
    case RequestRead => c.client.RequestSt?
    case _ => false
  }

  function Ate(c: Conn, authOn: bool, data: seq<byte>): Conn
    requires Reads(c)
  {
    match c.phase
    case HelloRead => AfterHello(c, authOn, data)
    case AuthRead => AfterAuth(c, data)
    case RequestRead => AfterRequest(c, data)
  }

  predicate Finished(c: Conn)
    requires Reads(c)
  {
    match c.phase
    case HelloRead => H.IsDone(c.client.hello)
    case AuthRead => A.IsDone(c.client.auth)
    case RequestRead => R.IsDone(c.client.req)
  }

  lemma AteReads(c: Conn, authOn: bool, data: seq<byte>)
    requires Reads(c)
    ensures var d := Ate(c, authOn, data);
            Reads(d) && d.phase == c.phase && d.clientFd == c.clientFd && d.spawned == c.spawned && d.live == c.live
  {
    hide H.Parsed, A.Parsed, R.Parsed;
  }

  /** What the buffer holds after two chunks, each eaten, is what it holds after both at once. */
  lemma BufferTwice(q: Queue, x: seq<byte>, y: seq<byte>, n: nat)
    requires n <= |y|
    ensures var bs := q.bytes + x;
            && q.Put(x).Take(|bs|) == Empty(q.cap) && q.Put(x).bytes == bs && bs[..|bs|] == bs
            && Empty(q.cap).Put(y).bytes == y && q.Put(x + y).bytes == bs + y && |bs| + n <= |bs + y|
            && (bs + y)[..|bs| + n] == bs + y[..n] && q.Put(x + y).cap == q.cap
            && q.Put(x + y).Take(|bs| + n).bytes == Empty(q.cap).Put(y).Take(n).bytes
            && q.Put(x + y).Take(|bs| + n).cap == Empty(q.cap).Put(y).Take(n).cap
  {
    var bs := q.bytes + x;
    assert q.bytes + (x + y) == bs + y;
    assert (bs + y)[|bs| + n..] == y[n..];
  }

  lemma Joined(a: seq<byte>, b: seq<byte>, c: seq<byte>)
    ensures a + b + c == a + (b + c)
  {
  }

  lemma OfferJoined(p: H.Negotiation, authOn: bool, a: seq<byte>, b: seq<byte>)
    requires !H.IsDone(p) && !H.IsDone(H.Parsed(authOn, p, a).st)
    ensures H.Parsed(authOn, p, a).eaten == |a|
    ensures H.Parsed(authOn, p, a + b) ==
            var q := H.Parsed(authOn, H.Parsed(authOn, p, a).st, b); Parse(q.st, |a| + q.eaten)
  {
    ConsumeSplit(H.Feeder(authOn), H.IsDone, p, a, b);
  }

  lemma OfferTwice(c: Conn, authOn: bool, x: seq<byte>, y: seq<byte>)
    requires c.client.HelloSt? && !H.IsDone(c.client.hello) && !H.IsDone(AfterHello(c, authOn, x).client.hello)
    ensures Alike(AfterHello(AfterHello(c, authOn, x), authOn, y), AfterHello(c, authOn, x + y))
  {
    hide H.Parsed, H.IsDone;
    var bs := c.rb.bytes + x;
    var p1 := H.Parsed(authOn, c.client.hello, bs);
    var p2 := H.Parsed(authOn, p1.st, y);
    OfferJoined(c.client.hello, authOn, bs, y);
    BufferTwice(c.rb, x, y, p2.eaten);
    Joined(c.log.fromClient, x, y);
    Joined(c.log.hello, bs, y[..p2.eaten]);
    var d := AfterHello(c, authOn, x);
    assert d.rb == Empty(c.rb.cap) && d.client.hello == p1.st && d.log.hello == c.log.hello + bs;
    hide Queue.Take, Queue.Put;
    var e, f := AfterHello(d, authOn, y), AfterHello(c, authOn, x + y);
    assert e.rb.bytes == f.rb.bytes && e.client == f.client;
    assert e.log == f.log;
  }

  lemma CredentialsJoined(p: A.Credentials, a: seq<byte>, b: seq<byte>)
    requires !A.IsDone(p) && !A.IsDone(A.Parsed(p, a).st)
    ensures A.Parsed(p, a).eaten == |a|
    ensures A.Parsed(p, a + b) ==
            var q := A.Parsed(A.Parsed(p, a).st, b); Parse(q.st, |a| + q.eaten)
  {
    ConsumeSplit(A.Feeder(), A.IsDone, p, a, b);
  }

  lemma CredentialsTwice(c: Conn, x: seq<byte>, y: seq<byte>)
    requires c.client.AuthSt? && !A.IsDone(c.client.auth) && !A.IsDone(AfterAuth(c, x).client.auth)
    ensures Alike(AfterAuth(AfterAuth(c, x), y), AfterAuth(c, x + y))
  {
    hide A.Parsed, A.IsDone;
    var bs := c.rb.bytes + x;
    var p1 := A.Parsed(c.client.auth, bs);
    var p2 := A.Parsed(p1.st, y);
    CredentialsJoined(c.client.auth, bs, y);
    BufferTwice(c.rb, x, y, p2.eaten);
    Joined(c.log.fromClient, x, y);
    Joined(c.log.auth, bs, y[..p2.eaten]);
    var d := AfterAuth(c, x);
    assert d.rb == Empty(c.rb.cap) && d.client.auth == p1.st && d.log.auth == c.log.auth + bs;
    hide Queue.Take, Queue.Put;
    var e, f := AfterAuth(d, y), AfterAuth(c, x + y);
    assert e.rb.bytes == f.rb.bytes && e.client == f.client;
    assert e.log == f.log;
  }

  lemma RequestJoined(p: R.Req, a: seq<byte>, b: seq<byte>)
    requires !R.IsDone(p) && !R.IsDone(R.Parsed(p, a).st)
    ensures R.Parsed(p, a).eaten == |a|
    ensures R.Parsed(p, a + b) ==
            var q := R.Parsed(R.Parsed(p, a).st, b); Parse(q.st, |a| + q.eaten)
  {
    ConsumeSplit(R.Feeder(), R.IsDone, p, a, b);
  }

  lemma RequestTwice(c: Conn, x: seq<byte>, y: seq<byte>)
    requires c.client.RequestSt? && !R.IsDone(c.client.req) && !R.IsDone(AfterRequest(c, x).client.req)
    ensures Alike(AfterRequest(AfterRequest(c, x), y), AfterRequest(c, x + y))
  {
    hide R.Parsed, R.IsDone;
    var bs := c.rb.bytes + x;
    var p1 := R.Parsed(c.client.req, bs);
    var p2 := R.Parsed(p1.st, y);
    RequestJoined(c.client.req, bs, y);
    BufferTwice(c.rb, x, y, p2.eaten);
    Joined(c.log.fromClient, x, y);
    Joined(c.log.request, bs, y[..p2.eaten]);
    var d := AfterRequest(c, x);
    assert d.rb == Empty(c.rb.cap) && d.client.req == p1.st && d.log.request == c.log.request + bs;
    hide Queue.Take, Queue.Put;
    var e, f := AfterRequest(d, y), AfterRequest(c, x + y);
    assert e.rb.bytes == f.rb.bytes && e.client == f.client;
    assert e.log == f.log;
  }

  /** Eating two chunks is eating them joined, as long as the first does not finish the message. */
  lemma AteTwice(c: Conn, authOn: bool, x: seq<byte>, y: seq<byte>)
    requires Reads(c) && !Finished(c)
    requires Reads(Ate(c, authOn, x)) && !Finished(Ate(c, authOn, x)) && Ate(c, authOn, x).phase == c.phase
    ensures Alike(Ate(Ate(c, authOn, x), authOn, y), Ate(c, authOn, x + y))
  {
    hide AfterHello, AfterAuth, AfterRequest, H.IsDone, A.IsDone, R.IsDone, Alike;
    match c.phase {
      case HelloRead => OfferTwice(c, authOn, x, y);
      case AuthRead => CredentialsTwice(c, x, y);
      case RequestRead => RequestTwice(c, x, y);
    }
  }

  // ---------------------------------------------------------------- the handlers on connections alike

  lemma ErrorAlike(c: Conn, d: Conn, t: Table, g: Globals, status: byte)
    requires Alike(c, d)
    ensures OutsAlike(ErrorWrite(c, t, g, status), ErrorWrite(d, t, g, status))
  {
    hide AfterSetInterest;
  }

  lemma AwaitingAlike(c: Conn, d: Conn, t: Table, g: Globals, id: nat, fd: int)
    requires Alike(c, d)
    ensures OutsAlike(Awaiting(c, t, g, id, fd), Awaiting(d, t, g, id, fd))
  {
    hide AfterSetInterest, AfterRegister, ErrorWrite;
    if c.client.RequestSt? {
      var s1 := AfterSetInterest(t, c.clientFd, NOOP);
      ErrorAlike(c.(originFd := -1), d.(originFd := -1), s1.table, g, c.client.status);
      var s2 := AfterRegister(s1.table, fd, WRITE, id);
      ErrorAlike(c.(originFd := -1), d.(originFd := -1), s2.table, g, c.client.status);
    }
  }

  lemma ConnectAlike(c: Conn, d: Conn, t: Table, g: Globals, id: nat, io: Io, jo: Io)
    requires Alike(c, d) && c.phase == RequestRead && jo == io.(recv := jo.recv)
    ensures OutsAlike(RequestConnect(c, t, g, id, io), RequestConnect(d, t, g, id, jo))
  {
    hide ErrorWrite, Awaiting, R.ErrnoToSocks;
    match io.connect {
      case NoSocket => ErrorAlike(c.(originFd := -1), d.(originFd := -1), t, g, R.GENERAL_FAILURE);
      case Refused(e) => ErrorAlike(c.(originFd := -1), d.(originFd := -1), t, g, R.ErrnoToSocks(e));
      case InProgress(fd) => AwaitingAlike(c, d, t, g, id, fd);
    }
  }

  lemma ProcessAlike(c: Conn, d: Conn, t: Table, g: Globals, id: nat, io: Io, jo: Io)
    requires Alike(c, d) && c.phase == RequestRead && jo == io.(recv := jo.recv)
    ensures OutsAlike(RequestProcess(c, t, g, id, io), RequestProcess(d, t, g, id, jo))
  {
    hide ErrorWrite, RequestConnect, TargetOf;
    ErrorAlike(c, d, t, g, R.COMMAND_NOT_SUPPORTED);
    ErrorAlike(c, d, t, g, R.ADDRESS_NOT_SUPPORTED);
    ErrorAlike(c, d, t, g, R.GENERAL_FAILURE);
    if c.client.RequestSt? {
      var target := TargetOf(c.client.req);
      ConnectAlike(c.(target := target), d.(target := target), t, g, id, io, jo);
    }
  }

  lemma VerdictAlike(c: Conn, d: Conn, t: Table, g: Globals, cred: A.Credentials)
    requires Alike(c, d)
    ensures OutsAlike(AuthProcess(c, t, g, cred), AuthProcess(d, t, g, cred))
  {
    hide FindUser;
  }

  lemma EngineAlike(o: Out, p: Out)
    requires OutsAlike(o, p)
    ensures OutsAlike(Settle(Jump(o)), Settle(Jump(p)))
  {
    hide AfterUnregister;
    JumpAlike(o, p);
    hide Jump;
    CloseAlike(Jump(o), Jump(p), if o.Out? then o.c.clientFd else 0);
  }

  lemma JumpAlike(o: Out, p: Out)
    requires OutsAlike(o, p)
    ensures OutsAlike(Jump(o), Jump(p)) && (Jump(o).Out? ==> o.Out? && Jump(o).c.clientFd == o.c.clientFd)
  {
    if o.Out? {
      ArriveAlike(o.c.(phase := o.ret), p.c.(phase := o.ret));
      hide Arrive;
    }
  }

  lemma ArriveAlike(c: Conn, d: Conn)
    requires Alike(c, d)
    ensures Alike(Arrive(c), Arrive(d)) && Arrive(c).clientFd == c.clientFd
  {
  }

  lemma CloseAlike(o: Out, p: Out, fd: int)
    requires OutsAlike(o, p)
    ensures OutsAlike(CloseFd(o, fd), CloseFd(p, fd))
  {
    hide AfterUnregister;
  }

  /** A read handler looks at a connection and at what came only through what its parser has eaten. */
  lemma HandlersAlike(c: Conn, d: Conn, t: Table, g: Globals, id: nat, io: Io, jo: Io)
    requires Reads(c) && Reads(d) && c.phase == d.phase && c.clientFd == d.clientFd && jo == io.(recv := jo.recv)
    requires io.recv != [] && jo.recv != [] && |io.recv| <= c.rb.Space() && |jo.recv| <= d.rb.Space()
    requires Alike(Ate(c, g.authOn, io.recv), Ate(d, g.authOn, jo.recv))
    ensures OutsAlike(ReadHandler(c, t, g, id, c.clientFd, io), ReadHandler(d, t, g, id, d.clientFd, jo))
  {
    hide AfterHello, AfterAuth, AfterRequest, H.IsDone, A.IsDone, R.IsDone, AuthProcess, RequestProcess;
    hide AfterSetInterest;
    AteReads(c, g.authOn, io.recv);
    AteReads(d, g.authOn, jo.recv);
    var c1, d1 := Ate(c, g.authOn, io.recv), Ate(d, g.authOn, jo.recv);
    match c.phase {
      case HelloRead =>
      case AuthRead => VerdictAlike(c1, d1, AfterSetInterest(t, c.clientFd, WRITE).table, g, c1.client.auth);
      case RequestRead => ProcessAlike(c1, d1, t, g, id, io, jo);
    }
  }

  // ---------------------------------------------------------------- a chunk that does not finish the message

  predicate Reading(c: Conn) {
    c.phase in {Fresh, HelloRead, AuthRead, RequestRead}
  }

  /** The message that the state reads, as far as it has come. */
  function MessageOf(c: Conn): seq<byte> {
    (match c.phase
     case HelloRead => c.log.hello
     case AuthRead => c.log.auth
     case RequestRead => c.log.request
     case _ => []) + c.rb.bytes
  }

  /** Neither complete nor wrong. */
  predicate Undecided(p: Phase, m: seq<byte>) {
    match p
    case AuthRead => !CredentialsComplete(m) && !WrongVersion(m, 1)
    case RequestRead => !RequestComplete(m) && !WrongVersion(m, 5) && !WrongType(m)
    case _ => !OfferComplete(m) && !WrongVersion(m, 5)
  }

  /** What is undecided was undecided before. */
  lemma UndecidedBefore(p: Phase, m: seq<byte>, more: seq<byte>)
    requires Undecided(p, m + more)
    ensures Undecided(p, m)
  {
  }

  lemma Unfinished(c: Conn, t: Table, id: nat, authOn: bool, x: seq<byte>)
    requires ConnInv(c, t, id, authOn) && !c.spawned && c.phase in {HelloRead, AuthRead, RequestRead}
    requires Undecided(c.phase, MessageOf(c) + x)
    ensures Reads(c) && !Finished(c) && c.rb.cap == RAW_BUFFER_SIZE
    ensures var d := Ate(c, authOn, x);
            && Reads(d) && d.phase == c.phase && !Finished(d) && d.rb == Empty(RAW_BUFFER_SIZE)
            && MessageOf(d) == MessageOf(c) + x
  {
    ReadingHas(c, t, id, authOn);
    hide ConnInv, AfterHello, AfterAuth, AfterRequest, H.Parsed, A.Parsed, R.Parsed, Owned, HelloTracks;
    hide OfferComplete, CredentialsComplete, RequestComplete, WrongType, WrongVersion;
    AteReads(c, authOn, x);
    match c.phase {
      case HelloRead =>
        HelloAte(c, authOn, x);
        DoneIs(AfterHello(c, authOn, x).client.hello);
        Joined(c.log.hello, c.rb.bytes, x);
      case AuthRead =>
        AuthAte(c, x);
        Joined(c.log.auth, c.rb.bytes, x);
      case RequestRead =>
        RequestAte(c, x);
        Joined(c.log.request, c.rb.bytes, x);
    }
  }

  /** The handler then leaves what the parser has eaten, and nothing else has changed. */
  lemma HandlerWaits(c: Conn, t: Table, g: Globals, id: nat, io: Io)
    requires Reads(c) && io.recv != [] && |io.recv| <= c.rb.Space()
    requires var d := Ate(c, g.authOn, io.recv); Reads(d) && d.phase == c.phase && !Finished(d)
    ensures Settle(Jump(ReadHandler(c, t, g, id, c.clientFd, io))) == Out(Ate(c, g.authOn, io.recv), t, g, c.phase)
  {
    hide AfterHello, AfterAuth, AfterRequest, H.IsDone, A.IsDone, RequestProcess, AuthProcess, AfterSetInterest;
    hide Settle, Jump;
    StaysSettled(Ate(c, g.authOn, io.recv), t, g);
  }

  /** The connection as its handler finds it. */
  lemma FirstStarts(c: Conn, t: Table, g: Globals, id: nat)
    requires ConnInv(c, t, id, g.authOn) && Reading(c) && !c.spawned
    ensures var d, g1 := HandleFirst(c, g), FirstGlobals(c, g);
            && ConnInv(d, t, id, g1.authOn) && d.phase in {HelloRead, AuthRead, RequestRead} && !d.spawned
            && MessageOf(d) == MessageOf(c) && d.clientFd == c.clientFd && d.rb == c.rb
            && (forall m :: Undecided(d.phase, m) <==> Undecided(c.phase, m))
            && HandleFirst(d, g1) == d && FirstGlobals(d, g1) == g1
  {
    if c.phase == Fresh {
      FirstKeeps(c, t, g, id);
      assert c == NewConn(c.obj, c.clientFd);
    }
    hide ConnInv, Undecided;
    assert c.phase == Fresh ==> forall m :: Undecided(Fresh, m) <==> Undecided(HelloRead, m) by { FreshIsHello(); }
  }

  lemma FreshIsHello()
    ensures forall m :: Undecided(Fresh, m) <==> Undecided(HelloRead, m)
  {
  }

  /** The world with that connection. */
  function With(w: World, k: nat, c: Conn, g: Globals): World
    requires k < |w.conns|
  {
    w.(conns := w.conns[k := c], g := g)
  }

  /** A chunk that leaves the message undecided. */
  lemma ChunkWaits(w: World, k: nat, io: Io)
    requires k < |w.conns| && MayRead(w, k, w.conns[k].clientFd) && Reading(w.conns[k])
    requires io.recv != [] && |io.recv| <= w.conns[k].rb.Space()
    requires Undecided(w.conns[k].phase, MessageOf(w.conns[k]) + io.recv)
    ensures var c := w.conns[k];
            var d, g1 := HandleFirst(c, w.g), FirstGlobals(c, w.g);
            && Reads(d) && !Finished(d)
            && var e := Ate(d, g1.authOn, io.recv);
               && Reads(e) && !Finished(e) && e.phase == d.phase && e.rb == Empty(RAW_BUFFER_SIZE)
               && MessageOf(e) == MessageOf(c) + io.recv && e.clientFd == c.clientFd
               && HandleFirst(e, g1) == e && FirstGlobals(e, g1) == g1
               && Enabled(w, Readable(c.clientFd, io))
               && Next(w, Readable(c.clientFd, io)) == Ok(With(w, k, e, g1))
               && MayRead(With(w, k, e, g1), k, c.clientFd)
               && (forall m :: Undecided(e.phase, m) <==> Undecided(c.phase, m))
  {
    var c := w.conns[k];
    var d, g1 := HandleFirst(c, w.g), FirstGlobals(c, w.g);
    hide Reachable, ConnInv, OnRead, ReadHandler, Next, Undecided, Ate, HandleFirst, FirstGlobals, Finished;
    hide MessageOf, Settle, Jump;
    ReadHappens(w, k, c.clientFd, io);
    FirstStarts(c, w.t, w.g, k + 1);
    Unfinished(d, w.t, k + 1, g1.authOn, io.recv);
    HandlerWaits(d, w.t, g1, k + 1, io);
    AteReads(d, g1.authOn, io.recv);
    OnReadIs(c, w.t, w.g, k + 1, io);
    MayReadHas(w, k, c.clientFd, io);
    var e := Ate(d, g1.authOn, io.recv);
    SteppedTo(w, k, io, e, g1);
    NotFirst(e, g1);
  }

  lemma NotFirst(c: Conn, g: Globals)
    requires c.phase != Fresh
    ensures HandleFirst(c, g) == c && FirstGlobals(c, g) == g
  {
  }

  lemma OnReadIs(c: Conn, t: Table, g: Globals, id: nat, io: Io)
    ensures OnRead(c, t, g, id, c.clientFd, io) ==
            Settle(Jump(ReadHandler(HandleFirst(c, g), t, FirstGlobals(c, g), id, c.clientFd, io)))
  {
    hide Settle, Jump, ReadHandler, HandleFirst, FirstGlobals;
  }

  lemma SteppedTo(w: World, k: nat, io: Io, e: Conn, g1: Globals)
    requires k < |w.conns| && MayRead(w, k, w.conns[k].clientFd)
    requires OnRead(w.conns[k], w.t, w.g, k + 1, w.conns[k].clientFd, io) == Out(e, w.t, g1, e.phase)
    requires e.live && !e.spawned && e.clientFd == w.conns[k].clientFd
    ensures Next(w, Readable(w.conns[k].clientFd, io)) == Ok(With(w, k, e, g1))
    ensures MayRead(With(w, k, e, g1), k, w.conns[k].clientFd)
  {
    hide Reachable, OnRead, Inv;
    ReachableInv(w);
    SameLength(w);
    MayReadHas(w, k, w.conns[k].clientFd, io);
    NeverAborts(w, Readable(w.conns[k].clientFd, io));
  }

  // ---------------------------------------------------------------- runs of chunks

  /** One read event for each chunk, with the same answers of the kernel. */
  function Arriving(fd: int, chunks: seq<seq<byte>>, io: Io): seq<Step> {
    if chunks == [] then [] else [Readable(fd, io.(recv := chunks[0]))] + Arriving(fd, chunks[1..], io)
  }

  /** Chunks that there is room for, of which only the last may decide the message. */
  ghost predicate Splits(c: Conn, chunks: seq<seq<byte>>) {
    && chunks != [] && |chunks[0]| <= c.rb.Space()
    && (forall i :: 0 <= i < |chunks| ==> 0 < |chunks[i]| && (i > 0 ==> |chunks[i]| <= RAW_BUFFER_SIZE))
    && (|chunks| > 1 ==> Undecided(c.phase, MessageOf(c) + Concat(chunks[..|chunks| - 1])))
  }

  lemma ReadsFirst(c: Conn, t: Table, id: nat, authOn: bool)
    requires ConnInv(c, t, id, authOn) && !c.spawned && c.phase in {HelloRead, AuthRead, RequestRead}
    ensures Reads(c) && !Finished(c)
  {
    ReadingHas(c, t, id, authOn);
    hide ConnInv;
  }

  /** The same message, with one more chunk of it eaten. */
  ghost predicate GoesOn(c: Conn, e: Conn, x: seq<byte>) {
    && e.rb == Empty(RAW_BUFFER_SIZE) && MessageOf(e) == MessageOf(c) + x
    && forall m :: Undecided(e.phase, m) <==> Undecided(c.phase, m)
  }

  /** The first chunk of several leaves the message undecided, and the rest is a split of what is left. */
  lemma SplitsOn(c: Conn, e: Conn, chunks: seq<seq<byte>>)
    requires Splits(c, chunks) && |chunks| > 1
    ensures Undecided(c.phase, MessageOf(c) + chunks[0])
    ensures GoesOn(c, e, chunks[0]) ==> Splits(e, chunks[1..])
  {
    var n := |chunks| - 1;
    var rest := Concat(chunks[1..][..n - 1]);
    assert chunks[..n][1..] == chunks[1..][..n - 1] && chunks[..n][0] == chunks[0];
    assert Concat(chunks[..n]) == chunks[0] + rest;
    Joined(MessageOf(c), chunks[0], rest);
    UndecidedBefore(c.phase, MessageOf(c) + chunks[0], rest);
    hide Undecided, MessageOf;
  }

  /** Where the last chunk finds the proxy: with the parser as far as the bytes before it have brought it. */
  ghost predicate Stands(w: World, w': World, k: nat, chunks: seq<seq<byte>>) {
    && chunks != [] && k < |w.conns| && k < |w'.conns| && MayRead(w', k, w.conns[k].clientFd)
    && w' == With(w, k, w'.conns[k], w'.g) && w'.conns[k].clientFd == w.conns[k].clientFd
    && FirstGlobals(w'.conns[k], w'.g) == FirstGlobals(w.conns[k], w.g)
    && var e, d, g1 := HandleFirst(w'.conns[k], w'.g), HandleFirst(w.conns[k], w.g), FirstGlobals(w.conns[k], w.g);
       && Reads(e) && Reads(d) && e.phase == d.phase && |chunks[|chunks| - 1]| <= e.rb.Space()
       && Alike(Ate(e, g1.authOn, chunks[|chunks| - 1]), Ate(d, g1.authOn, Concat(chunks)))
  }

  lemma AlikeSelf(c: Conn)
    ensures Alike(c, c)
  {
  }

  lemma AlikeChains(c: Conn, d: Conn, e: Conn)
    requires Alike(c, d) && Alike(d, e)
    ensures Alike(c, e)
  {
  }

  lemma MayReadInv(w: World, k: nat, fd: int)
    requires MayRead(w, k, fd)
    ensures ConnInv(w.conns[k], w.t, k + 1, w.g.authOn) && !w.conns[k].spawned
  {
    hide Became, Next, OnRead, ConnInv, MayRead;
    ReadHappens(w, k, fd, Io([], 0, NoSocket, OptFails, false));
  }

  lemma SameWith(w: World, k: nat)
    requires k < |w.conns|
    ensures w == With(w, k, w.conns[k], w.g)
  {
    assert w.conns[k := w.conns[k]] == w.conns;
  }

  lemma OneChunk(w: World, k: nat, chunks: seq<seq<byte>>)
    requires k < |w.conns| && MayRead(w, k, w.conns[k].clientFd) && Reading(w.conns[k])
    requires Splits(w.conns[k], chunks) && |chunks| == 1
    ensures Stands(w, w, k, chunks)
  {
    var c := w.conns[k];
    hide Reachable, ConnInv, HandleFirst, FirstGlobals, Ate, Finished, Alike, Undecided, MayRead, MessageOf, With;
    MayReadInv(w, k, c.clientFd);
    FirstStarts(c, w.t, w.g, k + 1);
    ReadsFirst(HandleFirst(c, w.g), w.t, k + 1, FirstGlobals(c, w.g).authOn);
    hide Reads;
    assert Concat(chunks) == chunks[0] by { assert Concat(chunks[1..]) == []; }
    AlikeSelf(Ate(HandleFirst(c, w.g), FirstGlobals(c, w.g).authOn, chunks[0]));
    SameWith(w, k);
  }

  lemma {:induction false} UpToLast(w: World, k: nat, chunks: seq<seq<byte>>, io: Io) returns (w': World)
    requires k < |w.conns| && MayRead(w, k, w.conns[k].clientFd) && Reading(w.conns[k]) && Splits(w.conns[k], chunks)
    ensures var before := Arriving(w.conns[k].clientFd, chunks[..|chunks| - 1], io);
            Possible(w, before) && Run(w, before) == Ok(w')
    ensures Stands(w, w', k, chunks)
    decreases |chunks|
  {
    hide Reachable, Next, Enabled, Undecided, Ate, Finished, Alike, HandleFirst, FirstGlobals, MayRead, MessageOf;
    hide Stands;
    var c := w.conns[k];
    if |chunks| == 1 {
      OneChunk(w, k, chunks);
      w' := w;
    } else {
      var x, rest := chunks[0], chunks[1..];
      var d, g1 := HandleFirst(c, w.g), FirstGlobals(c, w.g);
      SplitsOn(c, c, chunks);
      ChunkWaits(w, k, io.(recv := x));
      var e := Ate(d, g1.authOn, x);
      SplitsOn(c, e, chunks);
      var w1 := With(w, k, e, g1);
      w' := UpToLast(w1, k, rest, io);
      assert chunks[..|chunks| - 1][1..] == rest[..|rest| - 1];
      AteTwice(d, g1.authOn, x, Concat(rest));
      StandsOn(w, w1, w', k, chunks);
    }
  }

  lemma StandsOn(w: World, w1: World, w': World, k: nat, chunks: seq<seq<byte>>)
    requires |chunks| > 1 && k < |w.conns| && Reads(HandleFirst(w.conns[k], w.g))
    requires var d, g1 := HandleFirst(w.conns[k], w.g), FirstGlobals(w.conns[k], w.g);
             var e := Ate(d, g1.authOn, chunks[0]);
             && Reads(e) && e.phase == d.phase && e.clientFd == w.conns[k].clientFd && w1 == With(w, k, e, g1)
             && HandleFirst(e, g1) == e && FirstGlobals(e, g1) == g1
             && Alike(Ate(e, g1.authOn, Concat(chunks[1..])), Ate(d, g1.authOn, chunks[0] + Concat(chunks[1..])))
    requires Stands(w1, w', k, chunks[1..])
    ensures Stands(w, w', k, chunks)
  {
    hide Ate, Alike, HandleFirst, FirstGlobals, MayRead;
    var d, g1 := HandleFirst(w.conns[k], w.g), FirstGlobals(w.conns[k], w.g);
    var last := chunks[|chunks| - 1];
    assert chunks[1..][|chunks| - 2] == last;
    AlikeChains(Ate(HandleFirst(w'.conns[k], w'.g), g1.authOn, last),
                Ate(Ate(d, g1.authOn, chunks[0]), g1.authOn, Concat(chunks[1..])), Ate(d, g1.authOn, Concat(chunks)));
    assert With(w1, k, w'.conns[k], w'.g) == With(w, k, w'.conns[k], w'.g);
  }

  /** The same world, but for the place of the unread bytes of connection `k` in their array. */
  predicate WorldsAlike(v: World, w: World, k: nat) {
    && k < |v.conns| && k < |w.conns| && Alike(v.conns[k], w.conns[k])
    && v == w.(conns := w.conns[k := v.conns[k]])
  }

  lemma {:induction false} ArrivingSplits(fd: int, chunks: seq<seq<byte>>, io: Io)
    requires chunks != []
    ensures Arriving(fd, chunks, io) ==
            Arriving(fd, chunks[..|chunks| - 1], io) + [Readable(fd, io.(recv := chunks[|chunks| - 1]))]
    decreases |chunks|
  {
    var n := |chunks| - 1;
    if n == 0 {
      assert chunks[1..] == [] && chunks[..0] == [];
    } else {
      ArrivingSplits(fd, chunks[1..], io);
      assert chunks[1..][..n - 1] == chunks[..n][1..];
    }
  }

  /** All the chunks, by way of the world the last one finds. */
  lemma AllChunks(w: World, k: nat, chunks: seq<seq<byte>>, io: Io) returns (w': World)
    requires k < |w.conns| && MayRead(w, k, w.conns[k].clientFd) && Reading(w.conns[k]) && Splits(w.conns[k], chunks)
    ensures Stands(w, w', k, chunks)
    ensures var fd := w.conns[k].clientFd;
            && Possible(w, Arriving(fd, chunks, io))
            && Run(w, Arriving(fd, chunks, io)) == Next(w', Readable(fd, io.(recv := chunks[|chunks| - 1])))
  {
    w' := UpToLast(w, k, chunks, io);
    hide Reachable, Next, MayRead, Reading, Splits, Arriving, Run, Possible;
    var last := Readable(w.conns[k].clientFd, io.(recv := chunks[|chunks| - 1]));
    ArrivingSplits(w.conns[k].clientFd, chunks, io);
    hide Stands;
    StandsReads(w, w', k, chunks, io);
    RunAppends(w, Arriving(w.conns[k].clientFd, chunks[..|chunks| - 1], io), last);
  }

  lemma StandsReads(w: World, w': World, k: nat, chunks: seq<seq<byte>>, io: Io)
    requires Stands(w, w', k, chunks)
    ensures Enabled(w', Readable(w.conns[k].clientFd, io.(recv := chunks[|chunks| - 1])))
  {
    hide MayRead, Enabled, Alike, Ate, HandleFirst, FirstGlobals;
    MayReadHas(w', k, w.conns[k].clientFd, io.(recv := chunks[|chunks| - 1]));
  }

  lemma PutAlike(w: World, v1: World, v2: World, k: nat, o: Out, p: Out)
    requires k < |w.conns| == |w.workers| && |v1.conns| == |v2.conns| == |w.conns|
    requires v1 == With(w, k, v1.conns[k], v1.g) && v2 == With(w, k, v2.conns[k], v2.g) && OutsAlike(o, p) && o.Out?
    requires v1.conns[k].spawned == v2.conns[k].spawned && v1.conns[k].live == v2.conns[k].live
    ensures WorldsAlike(Put(v1, k, o, Idle), Put(v2, k, p, Idle), k)
  {
    hide Release;
    assert v1.conns[k := o.c] == w.conns[k := o.c] && v2.conns[k := p.c] == w.conns[k := p.c];
  }

  /** What the last event works on. */
  lemma LastEats(w: World, k: nat, v: World, a: seq<seq<byte>>, io: Io) returns (e: Conn)
    requires Stands(w, v, k, a)
    ensures var g1, last := FirstGlobals(w.conns[k], w.g), a[|a| - 1];
            && OnRead(v.conns[k], v.t, v.g, k + 1, w.conns[k].clientFd, io) ==
               Settle(Jump(ReadHandler(e, w.t, g1, k + 1, e.clientFd, io)))
            && Reads(HandleFirst(w.conns[k], w.g)) && Reads(e) && |last| <= e.rb.Space()
            && e.phase == HandleFirst(w.conns[k], w.g).phase && e.clientFd == w.conns[k].clientFd
            && Alike(Ate(e, g1.authOn, last), Ate(HandleFirst(w.conns[k], w.g), g1.authOn, Concat(a)))
  {
    hide MayRead, Ate, Concat, ReadHandler, OnRead, Alike, Settle, Jump, FirstGlobals;
    e := HandleFirst(v.conns[k], v.g);
    OnReadIs(v.conns[k], v.t, v.g, k + 1, io);
    SameClient(v.conns[k], v.g);
    hide HandleFirst;
  }

  lemma SameClient(c: Conn, g: Globals)
    ensures HandleFirst(c, g).clientFd == c.clientFd
  {
  }

  lemma AlikeMeet(c: Conn, d: Conn, e: Conn)
    requires Alike(c, e) && Alike(d, e)
    ensures Alike(c, d)
  {
  }

  /** The event of the last chunk, from two worlds that stand for the same bytes. */
  lemma LastAlike(w: World, k: nat, v1: World, v2: World, a: seq<seq<byte>>, b: seq<seq<byte>>, io: Io)
    requires Stands(w, v1, k, a) && Stands(w, v2, k, b) && Concat(a) == Concat(b)
    requires a[|a| - 1] != [] && b[|b| - 1] != []
    ensures var fd := w.conns[k].clientFd;
            OutsAlike(OnRead(v1.conns[k], v1.t, v1.g, k + 1, fd, io.(recv := a[|a| - 1])),
                      OnRead(v2.conns[k], v2.t, v2.g, k + 1, fd, io.(recv := b[|b| - 1])))
  {
    var g1 := FirstGlobals(w.conns[k], w.g);
    var i1, i2 := io.(recv := a[|a| - 1]), io.(recv := b[|b| - 1]);
    var e1 := LastEats(w, k, v1, a, i1);
    var e2 := LastEats(w, k, v2, b, i2);
    hide Ate, HandleFirst, FirstGlobals, Concat, ReadHandler, OnRead, OutsAlike, Stands, Settle, Jump, Alike, Reads;
    AlikeMeet(Ate(e1, g1.authOn, i1.recv), Ate(e2, g1.authOn, i2.recv),
              Ate(HandleFirst(w.conns[k], w.g), g1.authOn, Concat(a)));
    HandlersAlike(e1, e2, w.t, g1, k + 1, i1, i2);
    EngineAlike(ReadHandler(e1, w.t, g1, k + 1, e1.clientFd, i1), ReadHandler(e2, w.t, g1, k + 1, e2.clientFd, i2));
  }

  /**
   * Two splits of the same bytes lead to the same world: the same fields parsed, the same bytes left over,
   * the same state, and the same answer. Each chunk has to fit, and only the last may decide the message.
   */
  lemma SplitsAgree(w: World, k: nat, a: seq<seq<byte>>, b: seq<seq<byte>>, io: Io)
    requires k < |w.conns| && MayRead(w, k, w.conns[k].clientFd) && Reading(w.conns[k])
    requires Splits(w.conns[k], a) && Splits(w.conns[k], b) && Concat(a) == Concat(b)
    ensures var fd := w.conns[k].clientFd;
            var r, s := Run(w, Arriving(fd, a, io)), Run(w, Arriving(fd, b, io));
            && Possible(w, Arriving(fd, a, io)) && Possible(w, Arriving(fd, b, io))
            && r.Ok? && s.Ok? && WorldsAlike(r.w, s.w, k)
  {
    var fd := w.conns[k].clientFd;
    var v1 := AllChunks(w, k, a, io);
    var v2 := AllChunks(w, k, b, io);
    assert a[|a| - 1] != [] && b[|b| - 1] != [];
    hide Splits, Arriving, Run, Possible, Reading, MayRead, Concat, OnRead, OutsAlike, WorldsAlike, Next, Put;
    hide Reachable;
    LastAlike(w, k, v1, v2, a, b, io);
    var i1, i2 := io.(recv := a[|a| - 1]), io.(recv := b[|b| - 1]);
    Steps(v1, k, fd, i1);
    Steps(v2, k, fd, i2);
    PutAlike(w, v1, v2, k, OnRead(v1.conns[k], v1.t, v1.g, k + 1, fd, i1),
             OnRead(v2.conns[k], v2.t, v2.g, k + 1, fd, i2));
  }

  /** A read event is that of its connection. */
  lemma Steps(w: World, k: nat, fd: int, io: Io)
    requires MayRead(w, k, fd)
    ensures |w.workers| == |w.conns| && w.conns[k].live && !w.conns[k].spawned
    ensures var o := OnRead(w.conns[k], w.t, w.g, k + 1, fd, io);
            o.Out? && Next(w, Readable(fd, io)) == Ok(Put(w, k, o, Idle))
  {
    hide Reachable, Inv, OnRead, Put, Next, Enabled;
    MayReadHas(w, k, fd, io);
    MayReadInv(w, k, fd);
    ReachableInv(w);
    SameLength(w);
    NeverAborts(w, Readable(fd, io));
    ReadableRuns(w, fd, io);
  }
}
