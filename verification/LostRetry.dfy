/**
 * What becomes of a connection whose address retry got no descriptor: exactly, for every answer of the
 * kernel to its next event, and for ever once it has no interest left.
 */
module LostRetry {
  import opened Bytes
  import opened Buffers
  import opened Selector
  import opened Session
  import opened SessionInvariant
  import opened SessionProofs
  import opened SessionEngine
  import opened EventFrame
  import opened World
  import opened WorldInvariant
  import opened WorldProofs
  import opened Guarantees
  import H = Hello
  import A = Auth
  import R = Request

  // ---------------------------------------------------------------- stranded

  /** The client alone, told of the failure but in the wrong state. */
  ghost predicate Stranded(c: Conn, t: Table, id: nat) {
    && c.live && c.phase == RequestConnecting && c.client.RequestSt? && c.origin.Connecting?
    && c.originFd == -1 && c.resolution != [] && !c.spawned
    && Owned(c.clientFd, -1, 1, t, id) && c.references == 1 && InterestOf(c.clientFd, t) == WRITE
  }

  lemma ConnectingHas(c: Conn, t: Table, id: nat, authOn: bool)
    requires ConnInv(c, t, id, authOn) && c.phase == RequestConnecting
    ensures c.live && c.wb == Empty(RAW_BUFFER_SIZE) && c.client.RequestSt? && c.origin.Connecting? && !c.spawned
    ensures c.originFd != -1 && Registered(c, t, id)
  {
    hide H.Negotiated, H.Parsed, A.Parsed, R.Parsed, Owned, Aimed, Admitted;
  }

  lemma ErrorStrands(c: Conn, t: Table, g: Globals, id: nat, status: byte)
    requires c.live && c.phase == RequestConnecting && c.client.RequestSt? && c.origin.Connecting? && !c.spawned
    requires c.originFd == -1 && c.resolution != [] && c.references == 1
    requires c.wb.Space() >= 10 && Owned(c.clientFd, -1, 1, t, id)
    ensures var o := ErrorWrite(c, t, g, status);
            o.Out? && Stranded(o.c, o.t, id) && o.c == Answering(c, status) && Frame(t, o.t, id)
  {
    hide Owned, Frame;
    InterestOnOwn(c.clientFd, -1, 1, t, id, c.clientFd, WRITE);
  }

  /** An attempt without a new descriptor, the old one being gone, strands the connection; each kind of failure. */
  lemma NoSocketStrands(c: Conn, t: Table, g: Globals, id: nat, io: Io, d: Conn, u: Table)
    requires Dropped(c, t, id, d, u) && io.connect.NoSocket? && c.wb.Space() >= 10
    ensures Failed(d, u, id, RequestConnect(c, t, g, id, io))
  {
    ErrorStrands(d.(originFd := -1), u, g, id, R.GENERAL_FAILURE);
    hide ErrorWrite, Stranded, DropOrigin, Owned, Frame;
  }

  lemma RefusedStrands(c: Conn, t: Table, g: Globals, id: nat, io: Io, d: Conn, u: Table)
    requires Dropped(c, t, id, d, u) && io.connect.Refused? && c.wb.Space() >= 10
    ensures Failed(d, u, id, RequestConnect(c, t, g, id, io))
  {
    var e := io.connect.e;
    ErrorStrands(d.(originFd := -1), u, g, id, R.ErrnoToSocks(e));
    hide ErrorWrite, Stranded, DropOrigin, Owned, Frame;
  }

  lemma UnregisteredStrands(c: Conn, t: Table, g: Globals, id: nat, io: Io, d: Conn, u: Table)
    requires Dropped(c, t, id, d, u) && io.connect.InProgress? && (InvalidFd(io.connect.fd) || io.connect.fd in u)
    requires c.wb.Space() >= 10
    ensures Failed(d, u, id, RequestConnect(c, t, g, id, io))
  {
    hide Owned, Frame, DropOrigin;
    InterestOnOwn(d.clientFd, -1, 1, u, id, d.clientFd, NOOP);
    var u1 := AfterSetInterest(u, d.clientFd, NOOP).table;
    ErrorStrands(d.(originFd := -1), u1, g, id, d.client.status);
    FrameChains(u, u1, ErrorWrite(d.(originFd := -1), u1, g, d.client.status).t, id);
    hide ErrorWrite, Stranded;
  }

  /** What a retry finds once the previous origin is closed. */
  ghost predicate Dropped(c: Conn, t: Table, id: nat, d: Conn, u: Table) {
    && c.phase == RequestConnecting && DropOrigin(c, t) == (d, u) && d == c.(references := 1)
    && d.live && d.client.RequestSt? && d.origin.Connecting? && !d.spawned && d.resolution != []
    && Owned(d.clientFd, -1, 1, u, id)
  }

  /** One more error reply is buffered. */
  ghost predicate Failed(d: Conn, u: Table, id: nat, o: Out) {
    && o.Out? && Stranded(o.c, o.t, id) && Frame(u, o.t, id) && |o.c.wb.bytes| == |d.wb.bytes| + 10
    && o.c == d.(originFd := -1, client := o.c.client, wb := o.c.wb, log := o.c.log)
    && o.c.wb == d.wb.(bytes := o.c.wb.bytes)
  }

  lemma AttemptFails(c: Conn, t: Table, g: Globals, id: nat, io: Io, d: Conn, u: Table)
    requires Dropped(c, t, id, d, u) && c.wb.Space() >= 10
    requires !(io.connect.InProgress? && !InvalidFd(io.connect.fd) && io.connect.fd !in u)
    ensures Failed(d, u, id, RequestConnect(c, t, g, id, io))
  {
    hide Failed, Dropped, RequestConnect;
    match io.connect {
      case NoSocket => NoSocketStrands(c, t, g, id, io, d, u);
      case Refused(_) => RefusedStrands(c, t, g, id, io, d, u);
      case InProgress(_) => UnregisteredStrands(c, t, g, id, io, d, u);
    }
  }

  /** A retry that gets no descriptor strands the connection. */
  lemma RetryStrands(c: Conn, t: Table, g: Globals, id: nat, io: Io)
    requires ConnInv(c, t, id, g.authOn) && c.phase == RequestConnecting && WillRetry(c, io) && !RetryReaches(c, t, io)
    ensures var o := Jump(Retry(c, t, g, id, io));
            o.Out? && Stranded(o.c, o.t, id) && o.c.clientFd == c.clientFd && o.c.wb.Space() == RAW_BUFFER_SIZE - 10
  {
    ConnectingHas(c, t, id, g.authOn);
    hide ConnInv, Owned, Frame, DropOrigin;
    var k := c.tried + 1;
    var c0 := c.(tried := k, target := c.resolution[k]);
    Drops(c0, t, id);
    var (d, u) := DropOrigin(c0, t);
    assert Dropped(c0, t, id, d, u);
    hide RequestConnect, Stranded, Dropped;
    AttemptFails(c0, t, g, id, io, d, u);
  }

  // ---------------------------------------------------------------- the next event

  /** It has an origin again; the error reply of the failed attempt is still in front of what will come. */
  ghost predicate Revived(c: Conn, o: Out, io: Io, id: nat) {
    && o.Out? && io.connect.InProgress? && o.c.live && o.c.phase == RequestConnecting && o.c.wb == c.wb
    && o.c.originFd == io.connect.fd && Registered(o.c, o.t, id)
    && InterestOf(o.c.originFd, o.t) == WRITE && InterestOf(o.c.clientFd, o.t) == NOOP
  }

  /** Alive, with a single descriptor that nobody watches. */
  ghost predicate Hung(c: Conn, t: Table, id: nat) {
    && c.live && c.phase == RequestWrite && !c.spawned && Owned(c.clientFd, -1, 1, t, id)
    && InterestOf(c.clientFd, t) == NOOP
  }

  lemma NothingToDrop(c: Conn, t: Table, id: nat)
    requires Stranded(c, t, id)
    ensures Dropped(c, t, id, c, t)
  {
    hide Owned;
  }

  lemma StrandedRevives(c: Conn, t: Table, g: Globals, id: nat, io: Io)
    requires Stranded(c, t, id) && WillRetry(c, io) && RetryReaches(c, t, io)
    ensures Revived(c, Jump(Retry(c, t, g, id, io)), io, id)
  {
    var k := c.tried + 1;
    var c0 := c.(tried := k, target := c.resolution[k]);
    hide Owned, Frame;
    assert !InvalidFd(io.connect.fd) && io.connect.fd !in t;
    AwaitingRegisters(c0, t, g, id, io.connect.fd);
    hide Awaiting;
  }

  lemma StrandedAgain(c: Conn, t: Table, g: Globals, id: nat, io: Io)
    requires Stranded(c, t, id) && WillRetry(c, io) && !RetryReaches(c, t, io)
    ensures var o := Jump(Retry(c, t, g, id, io));
            if c.wb.Space() < 10 then o.Abort?
            else o.Out? && Stranded(o.c, o.t, id) && o.c.wb.Space() == c.wb.Space() - 10 && o.c.tried == c.tried + 1
  {
    var k := c.tried + 1;
    var c0 := c.(tried := k, target := c.resolution[k]);
    NothingToDrop(c0, t, id);
    if c.wb.Space() >= 10 {
      hide Owned, RequestConnect, Frame, Dropped;
      assert !(io.connect.InProgress? && !InvalidFd(io.connect.fd) && io.connect.fd !in t);
      AttemptFails(c0, t, g, id, io, c0, t);
    } else {
      hide Owned;
      InterestOnOwn(c.clientFd, -1, 1, t, id, c.clientFd, NOOP);
    }
  }

  /** The reply is marshalled again, and the client is first watched and then not: it is both ends. */
  lemma ConnectedHangs(c: Conn, t: Table, g: Globals, id: nat, status: byte)
    requires c.live && c.phase == RequestConnecting && c.client.RequestSt? && c.origin.Connecting?
    requires Owned(c.clientFd, -1, 1, t, id) && !c.spawned
    ensures var o := Settle(Jump(Connected(c, t, g, c.clientFd, status)));
            if c.wb.Space() < 10 then o.Abort? else o.Out? && Hung(o.c, o.t, id) && Frame(t, o.t, id)
  {
    hide Frame, Owned;
    InterestOnOwn(c.clientFd, -1, 1, t, id, c.clientFd, WRITE);
    var t1 := AfterSetInterest(t, c.clientFd, WRITE).table;
    InterestOnOwn(c.clientFd, -1, 1, t1, id, c.clientFd, NOOP);
    FrameChains(t, t1, AfterSetInterest(t1, c.clientFd, NOOP).table, id);
  }

  lemma StrandedHangs(c: Conn, t: Table, g: Globals, id: nat, io: Io)
    requires Stranded(c, t, id) && !WillRetry(c, io)
    ensures var o := Settle(Jump(WriteHandler(c, t, g, id, c.clientFd, io)));
            if c.wb.Space() < 10 then o.Abort? else o.Out? && Hung(o.c, o.t, id) && Frame(t, o.t, id)
  {
    hide Owned, Connected, Settle, Jump, Hung, Frame;
    match io.sockopt {
      case OptFails => ConnectedHangs(c, t, g, id, R.GENERAL_FAILURE);
      case SoError(e) =>
        ConnectedHangs(c.(originFd := c.clientFd), t, g, id, R.SUCCEEDED);
        ConnectedHangs(c, t, g, id, R.ErrnoToSocks(e));
    }
  }

  /**
   * The next event of a stranded connection, whatever the kernel answers. If there is another address
   * and the client's socket reports an error, the retry decides: a registered descriptor revives the
   * connection, anything else strands it again with one more reply buffered. In every other case it
   * hangs. Without room for another reply the process aborts instead.
   */
  lemma StrandedOutcome(c: Conn, t: Table, g: Globals, id: nat, io: Io)
    requires Stranded(c, t, id)
    ensures var o := OnWrite(c, t, g, id, c.clientFd, io);
            if WillRetry(c, io) && RetryReaches(c, t, io) then Revived(c, o, io, id)
            else if c.wb.Space() < 10 then o.Abort?
            else if WillRetry(c, io) then
              o.Out? && Stranded(o.c, o.t, id) && o.c.wb.Space() == c.wb.Space() - 10 && o.c.tried == c.tried + 1
            else o.Out? && Hung(o.c, o.t, id)
  {
    if WillRetry(c, io) {
      assert ConnectingH(c, t, g, id, c.clientFd, io) == Retry(c, t, g, id, io);
      if RetryReaches(c, t, io) {
        StrandedRevives(c, t, g, id, io);
      } else {
        StrandedAgain(c, t, g, id, io);
      }
      hide Owned, Retry, RetryReaches;
    } else {
      StrandedHangs(c, t, g, id, io);
      hide Owned, ConnectingH, Settle, Jump, Hung, WillRetry, RetryReaches;
    }
  }

  // ---------------------------------------------------------------- for ever

  /** Nobody else holds the descriptor, no job and no thread is on its way to the connection. */
  ghost predicate HungAt(w: World, k: nat) {
    && k < |w.conns| == |w.workers| && Hung(w.conns[k], w.t, k + 1)
    && Alone(w.conns, k, w.conns[k].clientFd) && !Awaited(w, k, w.conns[k].clientFd)
  }

  ghost predicate Alone(conns: seq<Conn>, k: nat, fd: int) {
    forall j :: 0 <= j < |conns| && j != k && conns[j].live ==> conns[j].clientFd != fd && conns[j].originFd != fd
  }

  ghost predicate Awaited(w: World, k: nat, fd: int)
    requires k < |w.workers|
  {
    || fd in w.jobs || (w.main.Draining? && fd in w.main.rest)
    || w.main == Spawning(k) || w.workers[k] in {Started, Resolved}
  }

  lemma HungTable(c: Conn, t: Table, id: nat)
    requires Hung(c, t, id)
    ensures c.clientFd in t && t[c.clientFd] == Item(NOOP, id) && c.clientFd >= 0
    ensures forall fd :: fd in t && t[fd].data == id ==> fd == c.clientFd
  {
  }

  lemma HungSpared(c: Conn, t: Table, id: nat, t': Table, own: set<int>, other: nat)
    requires Hung(c, t, id) && Spares(t, t', own, other) && other != id && c.clientFd !in own
    ensures Hung(c, t', id)
  {
  }

  /** An event on another connection leaves it hung. */
  lemma OthersEvent(w: World, k: nat, j: nat, fd: int, o: Out, main: Main)
    requires HungAt(w, k) && j < |w.conns| && j != k && w.conns[j].live && o.Out?
    requires fd != w.conns[k].clientFd && Modest(w.conns[j], w.t, Own(w.conns[j], fd), j + 1, o)
    requires main != Spawning(k) && (main.Draining? ==> w.conns[k].clientFd !in main.rest)
    ensures var w' := Put(w, j, o, main); HungAt(w', k) && w'.conns[k] == w.conns[k]
  {
    var f := w.conns[k].clientFd;
    HungTable(w.conns[k], w.t, k + 1);
    assert f !in Own(w.conns[j], fd);
    HungSpared(w.conns[k], w.t, k + 1, o.t, Own(w.conns[j], fd), j + 1);
    hide Hung, Spares, Release;
  }

  /** A descriptor that somebody watches, or that waits for its job, is that of somebody else. */
  lemma Elsewhere(w: World, k: nat, fd: int)
    requires HungAt(w, k) && fd in w.t && fd != w.conns[k].clientFd
    ensures Attached(w.t, fd) != k
  {
    HungTable(w.conns[k], w.t, k + 1);
  }

  lemma Watched(w: World, k: nat, fd: int)
    requires HungAt(w, k) && fd in w.t && w.t[fd].interest != NOOP
    ensures fd != w.conns[k].clientFd && Attached(w.t, fd) != k
  {
    HungTable(w.conns[k], w.t, k + 1);
  }

  lemma HungStays(w: World, s: Step, k: nat)
    requires HungAt(w, k) && Enabled(w, s) && Next(w, s).Ok?
    ensures HungAt(Next(w, s).w, k) && Next(w, s).w.conns[k] == w.conns[k]
  {
    match s {
      case Readable(fd, io) => ReadableElsewhere(w, fd, io, k);
      case Writable(fd, io) => WritableElsewhere(w, fd, io, k);
      case Proceed => ProceedElsewhere(w, k);
      case DrainNext(io) => DispatchElsewhere(w, io, k);
      case Accept(fd, obj, memory) => AcceptElsewhere(w, fd, obj, memory, k);
      case Lookup(_, _) => ThreadElsewhere(w, s, k);
      case Notify(_) => ThreadElsewhere(w, s, k);
      case DrainBegin =>
      case DrainEnd =>
      case Edit(ch) =>
      case Foreign(t') => ForeignElsewhere(w.conns[k], w.t, t', k + 1);
    }
    hide Hung, OnRead, OnWrite, OnBlock, FinishSpawn, RetryWorks, Unused, Release, Put, Alone;
  }

  lemma ReadableElsewhere(w: World, fd: int, io: Io, k: nat)
    requires HungAt(w, k) && Enabled(w, Readable(fd, io)) && Next(w, Readable(fd, io)).Ok?
    ensures var w' := Next(w, Readable(fd, io)).w; HungAt(w', k) && w'.conns[k] == w.conns[k]
  {
    hide Next, Enabled, OnRead, Put, HungAt, Modest, Attached, Own;
    ReadableRuns(w, fd, io);
    Watched(w, k, fd);
    var j := Attached(w.t, fd);
    EventsAreModest(w.conns[j], w.t, w.g, j + 1, fd, io);
    OthersEvent(w, k, j, fd, ReadOf(w, fd, io), Idle);
  }

  lemma WritableElsewhere(w: World, fd: int, io: Io, k: nat)
    requires HungAt(w, k) && Enabled(w, Writable(fd, io)) && Next(w, Writable(fd, io)).Ok?
    ensures var w' := Next(w, Writable(fd, io)).w; HungAt(w', k) && w'.conns[k] == w.conns[k]
  {
    hide Next, Enabled, OnWrite, Put, HungAt, Modest, Attached, Own;
    WritableRuns(w, fd, io);
    Watched(w, k, fd);
    var j := Attached(w.t, fd);
    EventsAreModest(w.conns[j], w.t, w.g, j + 1, fd, io);
    OthersEvent(w, k, j, fd, WriteOf(w, fd, io), Idle);
  }

  lemma ProceedElsewhere(w: World, k: nat)
    requires HungAt(w, k) && w.main.Spawning? && Next(w, Proceed).Ok?
    ensures HungAt(Next(w, Proceed).w, k) && Next(w, Proceed).w.conns[k] == w.conns[k]
  {
    hide FinishSpawn, Put, Hung;
    var j := w.main.k;
    var c := w.conns[j];
    assert c.clientFd != w.conns[k].clientFd;
    EventsAreModest(c, w.t, w.g, j + 1, c.clientFd, Io([], -1, NoSocket, OptFails, false));
    OthersEvent(w, k, j, c.clientFd, FinishSpawn(c, w.t, w.g), Idle);
  }

  lemma QueuedElsewhere(w: World, k: nat)
    requires HungAt(w, k) && w.main.Draining? && w.main.rest != []
    ensures w.main.rest[0] != w.conns[k].clientFd && w.conns[k].clientFd !in w.main.rest[1..]
  {
    hide Hung, Alone;
    assert w.main.rest[0] in w.main.rest && forall f :: f in w.main.rest[1..] ==> f in w.main.rest;
  }

  lemma DispatchElsewhere(w: World, io: Io, k: nat)
    requires HungAt(w, k) && Enabled(w, DrainNext(io)) && Next(w, DrainNext(io)).Ok?
    ensures var w' := Next(w, DrainNext(io)).w; HungAt(w', k) && w'.conns[k] == w.conns[k]
  {
    hide Next, Enabled, OnBlock, Put, HungAt, Modest, Attached, Own;
    DispatchRuns(w, io);
    QueuedElsewhere(w, k);
    var fd, main := w.main.rest[0], Draining(w.main.rest[1..]);
    if fd in w.t {
      Elsewhere(w, k, fd);
      var j := Attached(w.t, fd);
      EventsAreModest(w.conns[j], w.t, w.g, j + 1, fd, io);
      OthersEvent(w, k, j, fd, BlockOf(w, fd, io), main);
    } else {
      HungSkips(w, k, main);
    }
  }

  lemma HungSkips(w: World, k: nat, main: Main)
    requires HungAt(w, k) && main.Draining? && w.conns[k].clientFd !in main.rest
    ensures HungAt(w.(main := main), k)
  {
    hide Hung, Alone;
  }

  lemma AcceptElsewhere(w: World, fd: int, obj: nat, memory: bool, k: nat)
    requires HungAt(w, k)
    ensures var w' := AfterAccept(w, fd, obj, memory); HungAt(w', k) && w'.conns[k] == w.conns[k]
  {
    HungTable(w.conns[k], w.t, k + 1);
    var t' := AfterRegister(w.t, fd, READ, |w.conns| + 1).table;
    RegisterSpares(w.t, fd, READ, {}, |w.conns| + 1);
    HungSpared(w.conns[k], w.t, k + 1, t', {}, |w.conns| + 1);
    hide Hung, Spares, Release;
  }

  lemma ThreadElsewhere(w: World, s: Step, k: nat)
    requires HungAt(w, k) && Enabled(w, s) && Next(w, s).Ok? && (s.Lookup? || s.Notify?)
    ensures HungAt(Next(w, s).w, k) && Next(w, s).w.conns[k] == w.conns[k]
  {
    hide Hung;
    assert s.k != k;
  }

  lemma ForeignElsewhere(c: Conn, t: Table, t': Table, id: nat)
    requires Hung(c, t, id) && Frame(t, t', 0) && id != 0
    ensures Hung(c, t', id)
  {
  }

  /** No run ever serves it again: it stays as it is, alive and watched by nobody. */
  lemma {:induction false} HungForever(w: World, steps: seq<Step>, k: nat)
    requires HungAt(w, k) && Possible(w, steps) && Run(w, steps).Ok?
    ensures HungAt(Run(w, steps).w, k) && Run(w, steps).w.conns[k] == w.conns[k]
    decreases |steps|
  {
    hide HungAt, Next, Enabled;
    if steps != [] {
      HungStays(w, steps[0], k);
      HungForever(Next(w, steps[0]).w, steps[1..], k);
    }
  }

  // ---------------------------------------------------------------- from a reachable world

  /** Nobody else holds the descriptors of a live connection. */
  lemma LiveIsAlone(w: World, k: nat)
    requires Reachable(w) && k < |w.conns| && w.conns[k].live
    ensures Alone(w.conns, k, w.conns[k].clientFd)
  {
    hide Reachable, ConnInv;
    ReachableConn(w, k);
    OwnsBoth(w.conns[k], w.t, k + 1, w.g.authOn);
    forall j | 0 <= j < |w.conns| && j != k && w.conns[j].live
      ensures w.conns[j].clientFd != w.conns[k].clientFd && w.conns[j].originFd != w.conns[k].clientFd
    {
      ReachableConn(w, j);
      OwnsBoth(w.conns[j], w.t, j + 1, w.g.authOn);
    }
  }

  /** No job and no thread is on its way to a connection that waits for its origin. */
  lemma ConnectingUnawaited(w: World, k: nat)
    requires Reachable(w) && w.main.Idle? && k < |w.conns| && w.conns[k].live && w.conns[k].phase == RequestConnecting
    ensures |w.workers| == |w.conns| && !Awaited(w, k, w.conns[k].clientFd)
  {
    ReachableInv(w);
    ReachableConn(w, k);
    hide Reachable, ObjectsOk, GatesOk, StatsOk, DeadOk, ConnInv, TableOk;
    ConnectingHas(w.conns[k], w.t, k + 1, w.g.authOn);
    NotInFlight(w.conns, w.t, w.g.authOn, w.jobs, k);
    hide ConnsOk, QueueOk;
    assert WorkerOk(w.conns[k], w.workers[k], w.jobs, w.main == Spawning(k));
  }

  lemma OwnsBoth(c: Conn, t: Table, id: nat, authOn: bool)
    requires ConnInv(c, t, id, authOn)
    ensures c.clientFd in t && t[c.clientFd].data == id
    ensures c.originFd != -1 ==> c.originFd in t && t[c.originFd].data == id
    ensures c.clientFd != -1
  {
    hide Common, PhaseInv;
  }

  /**
   * A retry that gets no descriptor, followed by an event of the client with no retry left to make,
   * takes a connection out of every run of the proxy from there on.
   */
  lemma LostForever(w: World, k: nat, io1: Io, io2: Io, steps: seq<Step>)
    requires Reachable(w) && w.main.Idle? && k < |w.conns| && w.conns[k].live && w.conns[k].phase == RequestConnecting
    requires WillRetry(w.conns[k], io1) && !RetryReaches(w.conns[k], w.t, io1)
    ensures var fd := w.conns[k].originFd;
            var r1 := Next(w, Writable(fd, io1));
            && r1.Ok? && k < |r1.w.conns|
            && var c1 := r1.w.conns[k];
               (!WillRetry(c1, io2) ==>
                  var r2 := Next(r1.w, Writable(c1.clientFd, io2));
                  && r2.Ok? && k < |r2.w.conns|
                  && (Possible(r2.w, steps) && Run(r2.w, steps).Ok? ==>
                        k < |Run(r2.w, steps).w.conns| && Run(r2.w, steps).w.conns[k] == r2.w.conns[k]))
  {
    hide Reachable, Run, Possible, Next, HungAt;
    LostOnce(w, k, io1);
    var w1 := Next(w, Writable(w.conns[k].originFd, io1)).w;
    if !WillRetry(w1.conns[k], io2) {
      LostTwice(w1, k, io2);
      var r2 := Next(w1, Writable(w1.conns[k].clientFd, io2));
      if Possible(r2.w, steps) && Run(r2.w, steps).Ok? {
        HungForever(r2.w, steps, k);
        assert HungAt(Run(r2.w, steps).w, k);
        HungIndex(Run(r2.w, steps).w, k);
      }
    }
  }

  lemma HungIndex(w: World, k: nat)
    requires HungAt(w, k)
    ensures k < |w.conns|
  {
  }

  ghost predicate StrandedAt(w: World, k: nat) {
    && w.main.Idle? && k < |w.conns| == |w.workers| && Stranded(w.conns[k], w.t, k + 1) && w.conns[k].wb.Space() >= 10
    && Alone(w.conns, k, w.conns[k].clientFd) && !Awaited(w, k, w.conns[k].clientFd)
  }

  /** An event on the connection itself, after which it has the same client and no thread. */
  lemma PutAlone(w: World, k: nat, o: Out)
    requires w.main.Idle? && k < |w.conns| == |w.workers| && o.Out? && !o.c.spawned
    requires o.c.clientFd == w.conns[k].clientFd
    requires Alone(w.conns, k, w.conns[k].clientFd) && !Awaited(w, k, w.conns[k].clientFd)
    ensures var w' := Put(w, k, o, Idle);
            && w'.main.Idle? && |w'.conns| == |w'.workers| == |w.conns| && w'.conns[k] == o.c && w'.t == o.t
            && Alone(w'.conns, k, o.c.clientFd) && !Awaited(w', k, o.c.clientFd)
  {
    hide Release;
  }

  /** A write event of connection `k` that does not abort. */
  lemma WriteIs(w: World, k: nat, fd: int, io: Io)
    requires k < |w.conns| == |w.workers| && w.conns[k].live && fd in w.t && w.t[fd].data == k + 1
    requires OnWrite(w.conns[k], w.t, w.g, k + 1, fd, io).Out?
    ensures Next(w, Writable(fd, io)) == Ok(Put(w, k, OnWrite(w.conns[k], w.t, w.g, k + 1, fd, io), Idle))
  {
    hide OnWrite, Put;
  }

  lemma LostOnce(w: World, k: nat, io: Io)
    requires Reachable(w) && w.main.Idle? && k < |w.conns| && w.conns[k].live && w.conns[k].phase == RequestConnecting
    requires WillRetry(w.conns[k], io) && !RetryReaches(w.conns[k], w.t, io)
    ensures var r := Next(w, Writable(w.conns[k].originFd, io)); r.Ok? && StrandedAt(r.w, k)
  {
    var c := w.conns[k];
    hide Reachable, ConnInv, Stranded, WillRetry, RetryReaches, Retry, Jump, Alone, Awaited, Put, Next, OnWrite;
    hide Registered;
    LiveIsAlone(w, k);
    ConnectingUnawaited(w, k);
    ReachableConn(w, k);
    OwnsBoth(c, w.t, k + 1, w.g.authOn);
    ConnectingHas(c, w.t, k + 1, w.g.authOn);
    RetryStrands(c, w.t, w.g, k + 1, io);
    RetryEvent(c, w.t, w.g, k + 1, io);
    var o := Jump(Retry(c, w.t, w.g, k + 1, io));
    StrandedHas(o.c, o.t, k + 1);
    WriteIs(w, k, c.originFd, io);
    PutAlone(w, k, o);
  }

  lemma StrandedHas(c: Conn, t: Table, id: nat)
    requires Stranded(c, t, id)
    ensures !c.spawned && c.live && c.phase == RequestConnecting && c.clientFd in t && t[c.clientFd] == Item(WRITE, id)
  {
  }

  lemma RetryEvent(c: Conn, t: Table, g: Globals, id: nat, io: Io)
    requires c.phase == RequestConnecting && c.client.RequestSt? && c.origin.Connecting? && WillRetry(c, io)
    ensures OnWrite(c, t, g, id, c.originFd, io) == Jump(Retry(c, t, g, id, io))
  {
    hide RequestConnect;
  }

  lemma LostTwice(w: World, k: nat, io: Io)
    requires StrandedAt(w, k) && !WillRetry(w.conns[k], io)
    ensures var r := Next(w, Writable(w.conns[k].clientFd, io)); r.Ok? && HungAt(r.w, k) && k < |r.w.conns|
  {
    var c := w.conns[k];
    hide Next, OnWrite, WillRetry, RetryReaches, Stranded, Hung, Alone, Awaited, Put, Spares;
    StrandedHas(c, w.t, k + 1);
    StrandedOutcome(c, w.t, w.g, k + 1, io);
    EventsAreModest(c, w.t, w.g, k + 1, c.clientFd, io);
    var o := OnWrite(c, w.t, w.g, k + 1, c.clientFd, io);
    HungHas(o.c, o.t, k + 1);
    WriteIs(w, k, c.clientFd, io);
    PutAlone(w, k, o);
  }

  lemma HungHas(c: Conn, t: Table, id: nat)
    requires Hung(c, t, id)
    ensures !c.spawned
  {
  }
}
