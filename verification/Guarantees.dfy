/** What the proxy guarantees of every world a run can reach, and of every step it can take from there. */
module Guarantees {
  import opened Bytes
  import opened Buffers
  import opened Selector
  import opened Session
  import opened SessionInvariant
  import opened SessionProofs
  import opened SessionEngine
  import opened World
  import opened WorldInvariant
  import opened WorldProofs
  import H = Hello
  import A = Auth
  import R = Request

  /** Some run from some start ends here: any users, any other descriptors, any interleaving. */
  ghost predicate Reachable(w: World) {
    exists users, t, steps :: RunsTo(users, t, steps, w)
  }

  ghost predicate RunsTo(users: seq<User>, t: Table, steps: seq<Step>, w: World) {
    && (forall fd :: fd in t ==> t[fd].data == 0)
    && Possible(Start(users, t), steps) && Run(Start(users, t), steps) == Ok(w)
  }

  lemma ReachableInv(w: World)
    requires Reachable(w)
    ensures Inv(w)
  {
    hide Inv, Run, Possible;
    var users, t, steps :| RunsTo(users, t, steps, w);
    StartKeeps(users, t);
    RunKeeps(Start(users, t), steps);
  }

  lemma {:induction false} RunAppends(w: World, steps: seq<Step>, s: Step)
    requires Possible(w, steps) && Run(w, steps).Ok? && Enabled(Run(w, steps).w, s)
    ensures Possible(w, steps + [s]) && Run(w, steps + [s]) == Next(Run(w, steps).w, s)
    decreases |steps|
  {
    hide Next, Enabled;
    var all := steps + [s];
    if steps == [] {
      assert all == [s] && all[1..] == [];
      if Next(w, s).Ok? {
        assert Run(Next(w, s).w, []) == Next(w, s);
      }
    } else {
      assert all[0] == steps[0] && all[1..] == steps[1..] + [s];
      RunAppends(Next(w, steps[0]).w, steps[1..], s);
    }
  }

  /** No event handler ever aborts: whatever may happen next leads to another reachable world. */
  lemma NeverAborts(w: World, s: Step)
    requires Reachable(w) && Enabled(w, s)
    ensures Next(w, s).Ok? && Reachable(Next(w, s).w)
  {
    hide Inv, Run, Possible, Next, Enabled;
    ReachableInv(w);
    StepKeeps(w, s);
    var users, t, steps :| RunsTo(users, t, steps, w);
    RunAppends(Start(users, t), steps, s);
    assert RunsTo(users, t, steps + [s], Next(w, s).w);
  }

  lemma ReachableConn(w: World, k: nat)
    requires Reachable(w) && k < |w.conns| && w.conns[k].live
    ensures ConnInv(w.conns[k], w.t, k + 1, w.g.authOn)
  {
    ReachableInv(w);
    hide ConnInv;
  }

  // ---------------------------------------------------------------- streams

  /**
   * In each direction no byte is lost, invented or reordered, over the whole life of a connection and in
   * what is left of it at the end: what came out followed by what is buffered is what went in. Once it
   * copied, what reached the origin is a prefix of what the client sent after its request, and what
   * reached the client is the replies and then a prefix of what the origin sent.
   */
  lemma StreamIntegrity(w: World, k: nat)
    requires Reachable(w) && k < |w.conns|
    ensures var c := w.conns[k];
            var l := c.log;
            var n := |l.hello + l.auth + l.request|;
            && n <= |l.fromClient| && l.fromClient[..n] == l.hello + l.auth + l.request
            && l.toOrigin + c.rb.bytes == l.fromClient[n..]
            && l.toClient + c.wb.bytes == l.replies + l.fromOrigin
            && (c.live && c.phase == Copy ==> l.copied)
            && (l.copied ==> l.replies <= l.toClient && l.toClient[|l.replies|..] + c.wb.bytes == l.fromOrigin)
  {
    hide Inv, Reachable;
    ReachableConserved(w, k);
    hide ConnInv;
    var c := w.conns[k];
    var l := c.log;
    var eaten := l.hello + l.auth + l.request;
    assert eaten + l.toOrigin + c.rb.bytes == l.fromClient;
    assert eaten + (l.toOrigin + c.rb.bytes) == l.fromClient;
    if l.copied {
      assert l.toClient == l.replies + l.toClient[|l.replies|..];
      assert (l.toClient + c.wb.bytes)[|l.replies|..] == l.toClient[|l.replies|..] + c.wb.bytes;
      assert (l.replies + l.fromOrigin)[|l.replies|..] == l.fromOrigin;
    }
  }

  lemma ReachableConserved(w: World, k: nat)
    requires Reachable(w) && k < |w.conns|
    ensures Conserved(w.conns[k]) && (w.conns[k].live && w.conns[k].phase == Copy ==> w.conns[k].log.copied)
  {
    hide Conserved, ConnInv;
    ReachableInv(w);
    if w.conns[k].live {
      LiveConserved(w.conns[k], w.t, k + 1, w.g.authOn);
    }
  }

  lemma LiveConserved(c: Conn, t: Table, id: nat, authOn: bool)
    requires ConnInv(c, t, id, authOn)
    ensures Conserved(c) && (c.phase == Copy ==> c.log.copied)
  {
    hide Streams, Owned, ChosenRight, Aimed, Admitted, Mirrored, Requesting, Handshaking;
  }

  // ---------------------------------------------------------------- the duplex flags

  /** One end's read flag is the other's write flag, and a connection in COPY has a direction open. */
  lemma DuplexMirrored(w: World, k: nat)
    requires Reachable(w) && k < |w.conns| && w.conns[k].live && w.conns[k].phase == Copy
    ensures var c := w.conns[k];
            && c.client.ClientCopy? && c.origin.OriginCopy?
            && c.client.cDuplex.read == c.origin.oDuplex.write && c.client.cDuplex.write == c.origin.oDuplex.read
            && (c.client.cDuplex == NOOP <==> c.origin.oDuplex == NOOP) && c.client.cDuplex != NOOP
  {
    ReachableConn(w, k);
    hide H.Parsed, A.Parsed, R.Parsed, Owned, Aimed, Admitted, Inv, Reachable, Prelude, Common;
  }

  // ---------------------------------------------------------------- state and interest

  /** The state has a read handler, and the data that handler uses was initialised for it. */
  predicate HasReader(c: Conn, fd: int) {
    match c.phase
    case Fresh => fd == c.clientFd
    case HelloRead => fd == c.clientFd && c.client.HelloSt?
    case AuthRead => fd == c.clientFd && c.client.AuthSt?
    case RequestRead => fd == c.clientFd && c.client.RequestSt?
    case Copy => (fd == c.clientFd || fd == c.originFd) && c.client.ClientCopy? && c.origin.OriginCopy?
    case _ => false
  }

  predicate HasWriter(c: Conn, fd: int) {
    match c.phase
    case HelloWrite => fd == c.clientFd && c.client.HelloSt?
    case AuthWrite => fd == c.clientFd && c.client.AuthSt?
    case RequestConnecting => fd == c.originFd && c.client.RequestSt? && c.origin.Connecting?
    case RequestWrite => fd == c.clientFd && c.client.RequestSt?
    case Copy => (fd == c.clientFd || fd == c.originFd) && c.client.ClientCopy? && c.origin.OriginCopy?
    case _ => false
  }

  lemma ReaderIsThere(c: Conn, t: Table, id: nat, authOn: bool, fd: int)
    requires ConnInv(c, t, id, authOn) && fd in t && t[fd].data == id && t[fd].interest.read
    ensures HasReader(c, fd)
  {
    ReadableWhere(c, t, id, authOn, fd);
    assert fd == c.clientFd || fd == c.originFd;
    hide H.Parsed, A.Parsed, R.Parsed, Aimed, Admitted, Common, Prelude, Owned, InterestOf;
  }

  lemma WriterIsThere(c: Conn, t: Table, id: nat, authOn: bool, fd: int)
    requires ConnInv(c, t, id, authOn) && fd in t && t[fd].data == id && t[fd].interest.write
    ensures HasWriter(c, fd)
  {
    WritableWhere(c, t, id, authOn, fd);
    assert fd == c.clientFd || fd == c.originFd;
    hide H.Parsed, A.Parsed, R.Parsed, Aimed, Admitted, Common, Prelude, Owned, InterestOf;
  }

  /** Every descriptor that may fire belongs to a live connection whose state can take the event. */
  lemma InterestMatchesState(w: World, fd: int)
    requires Reachable(w) && fd in w.t && w.t[fd].data != 0
    ensures var k := Attached(w.t, fd);
            && 0 <= k < |w.conns| && w.conns[k].live
            && (w.t[fd].interest.read ==> HasReader(w.conns[k], fd))
            && (w.t[fd].interest.write ==> HasWriter(w.conns[k], fd))
  {
    hide Inv, Reachable, ConnInv, HasReader, HasWriter;
    ReachableInv(w);
    LiveAttached(w, fd);
    var k := Attached(w.t, fd);
    if w.t[fd].interest.read {
      ReaderIsThere(w.conns[k], w.t, k + 1, w.g.authOn, fd);
    }
    if w.t[fd].interest.write {
      WriterIsThere(w.conns[k], w.t, k + 1, w.g.authOn, fd);
    }
  }

  // ---------------------------------------------------------------- objects

  /** The reference count is the number of descriptors registered for the connection. */
  lemma ReferencesCountDescriptors(w: World, k: nat)
    requires Reachable(w) && k < |w.conns| && w.conns[k].live
    ensures |set fd | fd in w.t && w.t[fd].data == k + 1| == w.conns[k].references
  {
    ReachableConn(w, k);
    var c := w.conns[k];
    OwnedCount(c.clientFd, c.originFd, c.references, w.t, k + 1);
  }

  lemma OwnedCount(clientFd: int, originFd: int, references: nat, t: Table, id: nat)
    requires Owned(clientFd, originFd, references, t, id)
    ensures |set fd | fd in t && t[fd].data == id| == references
  {
    var mine := set fd | fd in t && t[fd].data == id;
    var both := if originFd == -1 then {clientFd} else {clientFd, originFd};
    forall fd ensures fd in mine <==> fd in both {
      if fd in mine {
        assert fd in t && t[fd].data == id;
      }
    }
    assert mine == both;
  }

  /** No object is shared, live and pooled, or pooled twice, and the pool is bounded. */
  lemma ObjectsAreSeparate(w: World)
    requires Reachable(w)
    ensures forall j, k :: 0 <= j < k < |w.conns| && w.conns[j].live && w.conns[k].live ==>
              w.conns[j].obj != w.conns[k].obj
    ensures forall k :: 0 <= k < |w.conns| && w.conns[k].live ==> w.conns[k].obj !in w.pool
    ensures forall i, j :: 0 <= i < j < |w.pool| ==> w.pool[i] != w.pool[j]
    ensures |w.pool| <= w.poolSize <= MAX_POOL
  {
    ReachableInv(w);
    hide Reachable, ConnsOk, TableOk, GatesOk, DeadOk, StatsOk, DnsOk;
  }

  // ---------------------------------------------------------------- the target

  /** The connection relays to the address the request named, or to one its name resolved to. */
  lemma RelaysToTheTarget(w: World, k: nat)
    requires Reachable(w) && k < |w.conns| && w.conns[k].live && w.conns[k].phase == Copy
    ensures var c := w.conns[k];
            var r := R.Parsed(R.INIT, c.log.request).st;
            if r.atyp == R.DOMAIN then c.target in c.log.resolved
            else c.target == TargetOf(r)
  {
    ReachableConn(w, k);
    hide Reachable, Inv, H.Parsed, A.Parsed, R.Parsed, TargetOf, Owned, Common, Admitted;
  }

  // ---------------------------------------------------------------- statistics

  /** The three counters, modulo 2^32: connections that ever copied, that copy now, and bytes relayed. */
  lemma CountersAreExact(w: World)
    requires Reachable(w)
    ensures w.g.historic == Sum(w.conns, CopiedBit) % U32
    ensures w.g.current == Sum(w.conns, CopyBit) % U32
    ensures w.g.transferred == Sum(w.conns, Delivered) % U32
  {
    ReachableInv(w);
    hide Reachable, ConnsOk, TableOk, GatesOk, DeadOk, ObjectsOk, DnsOk, Sum;
  }

  // ---------------------------------------------------------------- events and history

  /** What the handlers make of an event, for the connection its descriptor belongs to. */
  function ReadOf(w: World, fd: int, io: Io): Out {
    var k := Attached(w.t, fd);
    if IsLive(w, k) then OnRead(w.conns[k], w.t, w.g, k + 1, fd, io) else Abort
  }

  function WriteOf(w: World, fd: int, io: Io): Out {
    var k := Attached(w.t, fd);
    if IsLive(w, k) then OnWrite(w.conns[k], w.t, w.g, k + 1, fd, io) else Abort
  }

  function BlockOf(w: World, fd: int, io: Io): Out {
    var k := Attached(w.t, fd);
    if IsLive(w, k) then OnBlock(w.conns[k], w.t, w.g, k + 1, io) else Abort
  }

  ghost predicate Runs(w: World, s: Step, k: int, o: Out, main: Main) {
    IsLive(w, k) && o.Out? && Next(w, s) == Ok(Put(w, k, o, main))
  }

  lemma ReadableRuns(w: World, fd: int, io: Io)
    requires Enabled(w, Readable(fd, io)) && Next(w, Readable(fd, io)).Ok?
    ensures fd in w.t && w.t[fd].interest != NOOP && w.t[fd].interest.read
    ensures Runs(w, Readable(fd, io), Attached(w.t, fd), ReadOf(w, fd, io), Idle)
  {
    hide OnRead, Put;
  }

  lemma WritableRuns(w: World, fd: int, io: Io)
    requires Enabled(w, Writable(fd, io)) && Next(w, Writable(fd, io)).Ok?
    ensures fd in w.t && w.t[fd].interest != NOOP && w.t[fd].interest.write
    ensures Runs(w, Writable(fd, io), Attached(w.t, fd), WriteOf(w, fd, io), Idle)
  {
    hide OnWrite, Put, RetryWorks;
  }

  lemma DispatchRuns(w: World, io: Io)
    requires Enabled(w, DrainNext(io)) && Next(w, DrainNext(io)).Ok?
    ensures w.main.Draining? && w.main.rest != []
    ensures var fd, main := w.main.rest[0], Draining(w.main.rest[1..]);
            if fd in w.t then Runs(w, DrainNext(io), Attached(w.t, fd), BlockOf(w, fd, io), main)
            else Next(w, DrainNext(io)) == Ok(w.(main := main))
  {
    hide OnBlock, Put;
  }

  /** The connection whose handler a step runs, if it runs one. */
  function Attending(w: World, s: Step): int {
    match s
    case Readable(fd, _) => Attached(w.t, fd)
    case Writable(fd, _) => Attached(w.t, fd)
    case Proceed => if w.main.Spawning? then w.main.k else -1
    case DrainNext(_) => if w.main.Draining? && w.main.rest != [] then Attached(w.t, w.main.rest[0]) else -1
    case _ => -1
  }

  /** A step that runs a handler of connection `k` turns the world into `Put(w, k, o, main)`. */
  ghost predicate IsEvent(w: World, s: Step, k: nat, o: Out, main: Main) {
    && k < |w.conns| == |w.workers| && w.conns[k].live && o.Out? && Next(w, s) == Ok(Put(w, k, o, main))
    && k == Attending(w, s) && o.c.obj == w.conns[k].obj && o.c.clientFd == w.conns[k].clientFd
    && o.g.users == w.g.users && Opened(w.conns[k].log.gate, o.c.log.gate, o.g)
    && w.conns[k].log.spawns <= o.c.log.spawns
    && (o.c.spawned && !w.conns[k].spawned ==> w.workers[k] == NoWorker)
    && (!o.c.live ==> forall fd :: fd in o.t ==> o.t[fd].data != k + 1)
    && (o.g.authOn != w.g.authOn ==>
          !o.g.authOn && w.g.users == [] && w.conns[k].phase == Fresh && s.Readable? && k == Attached(w.t, s.fd))
  }

  /** A thread is created only for a connection that never had one. */
  lemma FirstSpawn(w: World, k: nat, o: Out)
    requires Inv(w) && w.main.Idle? && k < |w.conns| && w.conns[k].live && !InFlight(w.conns[k])
    requires Kept(o, w.t, k + 1) && Tallied(w.conns[k], w.g, o)
    ensures |w.workers| == |w.conns| && w.conns[k].log.spawns <= o.c.log.spawns
    ensures o.c.spawned ==> w.workers[k] == NoWorker
  {
    assert WorkerOk(w.conns[k], w.workers[k], w.jobs, false);
    if o.c.live {
      FlightCount(o.c, o.t, k + 1, o.g.authOn);
    }
    hide ConnsOk, TableOk, ObjectsOk, GatesOk, DeadOk, StatsOk, QueueOk, ConnInv, Frame, Moved, Opened;
  }

  /** What `IsEvent` takes from the invariants of a single connection. */
  lemma EventFacts(c: Conn, g: Globals, o: Out, t: Table, id: nat)
    requires Kept(o, t, id) && (Tallied(c, g, o) || Tallied(Dispatched(c), g, o))
    ensures o.Out? && o.c.obj == c.obj && o.c.clientFd == c.clientFd
    ensures o.g.users == g.users && Opened(c.log.gate, o.c.log.gate, o.g)
    ensures !o.c.live ==> forall fd :: fd in o.t ==> o.t[fd].data != id
    ensures o.g.authOn != g.authOn ==> !o.g.authOn && g.users == [] && c.phase == Fresh
  {
    hide Moved, Opened, Hopped, ConnInv, Frame;
  }

  lemma ReadableEvent(w: World, fd: int, io: Io) returns (k: nat, o: Out)
    requires Inv(w) && Enabled(w, Readable(fd, io))
    ensures IsEvent(w, Readable(fd, io), k, o, Idle)
  {
    hide Inv, OnRead, Kept, Tallied, Put, InFlight;
    ReadableKept(w, fd, io);
    k := Attached(w.t, fd);
    o := OnRead(w.conns[k], w.t, w.g, k + 1, fd, io);
    FirstSpawn(w, k, o);
    EventFacts(w.conns[k], w.g, o, w.t, k + 1);
  }

  lemma WritableEvent(w: World, fd: int, io: Io) returns (k: nat, o: Out)
    requires Inv(w) && Enabled(w, Writable(fd, io))
    ensures IsEvent(w, Writable(fd, io), k, o, Idle)
  {
    hide Inv, OnWrite, Kept, Tallied, Put, InFlight, RetryWorks, ConnInv;
    WritableKept(w, fd, io);
    k := Attached(w.t, fd);
    o := OnWrite(w.conns[k], w.t, w.g, k + 1, fd, io);
    LiveAttached(w, fd);
    WritableWhere(w.conns[k], w.t, k + 1, w.g.authOn, fd);
    FirstSpawn(w, k, o);
    EventFacts(w.conns[k], w.g, o, w.t, k + 1);
  }

  lemma ProceedEvent(w: World) returns (k: nat, o: Out)
    requires Inv(w) && w.main.Spawning?
    ensures IsEvent(w, Proceed, k, o, Idle)
  {
    hide Inv, FinishSpawn, Kept, Tallied, Put, ConnInv;
    SpawningIsLive(w);
    k := w.main.k;
    o := FinishSpawn(w.conns[k], w.t, w.g);
    OnSpawnedKeeps(w.conns[k], w.t, w.g, k + 1);
    SpawnedIsRequest(w.conns[k], w.t, k + 1, w.g.authOn);
    EventFacts(w.conns[k], w.g, o, w.t, k + 1);
  }

  lemma SpawnedIsRequest(c: Conn, t: Table, id: nat, authOn: bool)
    requires ConnInv(c, t, id, authOn) && c.spawned
    ensures c.phase == RequestRead
  {
  }

  lemma DrainEvent(w: World, io: Io) returns (k: nat, o: Out)
    requires Inv(w) && Enabled(w, DrainNext(io))
    ensures IsEvent(w, DrainNext(io), k, o, Draining(w.main.rest[1..]))
  {
    hide OnBlock, Kept, Tallied, Put, ConnInv, ConnsOk, TableOk, ObjectsOk, GatesOk, DeadOk, StatsOk, DnsOk;
    hide DrainOk, WorkerOk, Frame;
    HeadJob(w);
    k := Attached(w.t, w.main.rest[0]);
    o := OnBlock(w.conns[k], w.t, w.g, k + 1, io);
    OnBlockKeeps(w.conns[k], w.t, w.g, k + 1, io);
    Dispatches(w.conns[k], w.t, w.g, k + 1, o);
    EventFacts(w.conns[k], w.g, o, w.t, k + 1);
    DispatchHops(w.conns[k], w.g, o);
  }

  lemma DispatchHops(c: Conn, g: Globals, o: Out)
    requires Tallied(Dispatched(c), g, o) && !c.spawned
    ensures c.log.spawns <= o.c.log.spawns
  {
    hide Moved, Opened;
  }

  /** A released connection never changes again; resolutions are only ever added. */
  ghost predicate Follows(c: Conn, wk: Worker, c': Conn, wk': Worker) {
    && (!c.live ==> c' == c && wk' == wk)
    && c'.obj == c.obj && c'.clientFd == c.clientFd && c.log.spawns <= c'.log.spawns
    && (wk == Notified ==> wk' == Notified)
  }

  ghost predicate Later(w: World, w': World) {
    && |w.workers| == |w.conns| <= |w'.conns| == |w'.workers|
    && (forall k :: 0 <= k < |w.conns| ==> Follows(w.conns[k], w.workers[k], w'.conns[k], w'.workers[k]))
    && (!w.g.authOn ==> !w'.g.authOn)
  }

  predicate RunsHandler(s: Step) {
    s.Readable? || s.Writable? || s.Proceed? || s.DrainNext?
  }

  lemma EventOf(w: World, s: Step) returns (k: nat, o: Out, main: Main)
    requires Inv(w) && Enabled(w, s) && RunsHandler(s)
    ensures IsEvent(w, s, k, o, main)
  {
    hide Inv, IsEvent;
    match s {
      case Readable(fd, io) => main := Idle; k, o := ReadableEvent(w, fd, io);
      case Writable(fd, io) => main := Idle; k, o := WritableEvent(w, fd, io);
      case Proceed => main := Idle; k, o := ProceedEvent(w);
      case DrainNext(io) => main := Draining(w.main.rest[1..]); k, o := DrainEvent(w, io);
    }
  }

  lemma SameLength(w: World)
    requires Inv(w)
    ensures |w.workers| == |w.conns|
  {
  }

  lemma EventIsLater(w: World, s: Step, k: nat, o: Out, main: Main)
    requires IsEvent(w, s, k, o, main)
    ensures Later(w, Next(w, s).w)
  {
    hide Next;
  }

  lemma OtherIsLater(w: World, s: Step)
    requires |w.workers| == |w.conns| && Enabled(w, s) && Next(w, s).Ok? && !RunsHandler(s)
    ensures Later(w, Next(w, s).w)
  {
    hide OnRead, OnWrite, OnBlock, FinishSpawn, Unused, RetryWorks, Frame, AfterRegister, Release;
    match s {
      case Accept(_, _, _) => hide Enabled;
      case Lookup(k, found) =>
      case Notify(k) =>
      case _ => hide Enabled;
    }
  }

  lemma StepIsLater(w: World, s: Step)
    requires Inv(w) && Enabled(w, s) && Next(w, s).Ok?
    ensures Later(w, Next(w, s).w)
  {
    SameLength(w);
    hide Inv, Enabled, Next, IsEvent, Later;
    if RunsHandler(s) {
      var k, o, main := EventOf(w, s);
      EventIsLater(w, s, k, o, main);
    } else {
      OtherIsLater(w, s);
    }
  }

  /** Over a whole run: the dead stay dead and unchanged, and authentication never comes back on. */
  lemma {:induction false} RunIsLater(w: World, steps: seq<Step>)
    requires Inv(w) && Possible(w, steps) && Run(w, steps).Ok?
    ensures Later(w, Run(w, steps).w)
    decreases |steps|
  {
    hide Inv, Enabled, Next, Later;
    if steps == [] {
      LaterSelf(w);
    } else {
      var w1 := Next(w, steps[0]).w;
      StepKeeps(w, steps[0]);
      StepIsLater(w, steps[0]);
      RunIsLater(w1, steps[1..]);
      LaterChains(w, w1, Run(w1, steps[1..]).w);
    }
  }

  lemma LaterSelf(w: World)
    requires Inv(w)
    ensures Later(w, w)
  {
    SameLength(w);
    hide Inv;
  }

  lemma LaterChains(a: World, b: World, c: World)
    requires Later(a, b) && Later(b, c)
    ensures Later(a, c)
  {
  }

  /** Nothing but a hello that starts with an empty user table turns authentication off. */
  lemma AuthFallsOnlyWhenEmpty(w: World, s: Step)
    requires Reachable(w) && Enabled(w, s) && Next(w, s).Ok? && w.g.authOn != Next(w, s).w.g.authOn
    ensures !Next(w, s).w.g.authOn && w.g.users == []
    ensures s.Readable? && var k := Attached(w.t, s.fd); 0 <= k < |w.conns| && w.conns[k].phase == Fresh
  {
    ReachableInv(w);
    hide Inv, Reachable;
    if RunsHandler(s) {
      var k, o, main := EventOf(w, s);
      hide Enabled, Next;
    } else {
      hide OnRead, OnWrite, OnBlock, FinishSpawn;
    }
  }

  // ---------------------------------------------------------------- resolutions

  /** A connection resolves at most one name, and its block handler runs at most once for it. */
  lemma ResolvedOnce(w: World, k: nat)
    requires Reachable(w) && k < |w.conns|
    ensures var c := w.conns[k];
            && c.log.dispatches <= c.log.spawns <= 1
            && (c.log.dispatches != c.log.spawns ==> c.live && (c.spawned || c.phase == RequestResolv))
  {
    ReachableInv(w);
    var c := w.conns[k];
    assert WorkerOk(c, w.workers[k], Pending(w.main, w.jobs), w.main == Spawning(k));
    if c.live {
      FlightCount(c, w.t, k + 1, w.g.authOn);
    }
    hide Inv, Reachable, ConnInv;
  }

  /**
   * When a job is dispatched its descriptor is still that of the connection that asked, which has
   * left the handler that created the thread, however early the thread notified.
   */
  lemma DispatchedInResolv(w: World)
    requires Reachable(w) && w.main.Draining? && w.main.rest != []
    ensures var fd := w.main.rest[0];
            var k := Attached(w.t, fd);
            && 0 <= k < |w.conns| && w.conns[k].live && w.conns[k].clientFd == fd
            && w.conns[k].phase == RequestResolv && !w.conns[k].spawned && w.conns[k].log.dispatches == 0
  {
    ReachableInv(w);
    hide Inv, Reachable, ConnInv;
    HeadJob(w);
    var k := Attached(w.t, w.main.rest[0]);
    FlightCount(w.conns[k], w.t, k + 1, w.g.authOn);
  }

  lemma {:induction false} RunSplits(w: World, steps: seq<Step>, s: Step)
    ensures Run(w, steps + [s]) == match Run(w, steps) case Crash => Crash case Ok(w1) => Next(w1, s)
    decreases |steps|
  {
    hide Next;
    var all := steps + [s];
    if steps == [] {
      assert all == [s] && all[1..] == [];
    } else {
      assert all[0] == steps[0] && all[1..] == steps[1..] + [s];
      if Next(w, steps[0]).Ok? {
        RunSplits(Next(w, steps[0]).w, steps[1..], s);
      }
    }
  }

  /**
   * No job is lost by the final reset of the list: once a thread has notified, whatever steps of
   * whomever follow, the end of the next drain finds its connection dispatched, exactly once.
   */
  lemma NoJobLost(w: World, steps: seq<Step>, k: nat)
    requires Reachable(w) && k < |w.workers| && w.workers[k] == Notified && Possible(w, steps + [DrainEnd])
    ensures var r := Run(w, steps + [DrainEnd]);
            && r.Ok? && k < |r.w.conns| && r.w.jobs == []
            && r.w.conns[k].log.spawns == r.w.conns[k].log.dispatches == 1
  {
    hide Inv, Reachable, Run, Possible;
    ReachableInv(w);
    RunKeeps(w, steps + [DrainEnd]);
    RunIsLater(w, steps + [DrainEnd]);
    RunSplits(w, steps, DrainEnd);
    var w' := Run(w, steps + [DrainEnd]).w;
    assert w'.main == Idle && w'.jobs == [];
    NotifiedSpawned(w, k);
    hide Next;
    NotifiedDispatched(w', k);
  }

  lemma NotifiedSpawned(w: World, k: nat)
    requires Inv(w) && k < |w.workers| && w.workers[k] == Notified
    ensures k < |w.conns| && w.conns[k].log.spawns == 1
  {
    hide ConnInv, TableOk, ObjectsOk, GatesOk, DeadOk, StatsOk, QueueOk, DrainOk;
    var c := w.conns[k];
    assert WorkerOk(c, w.workers[k], Pending(w.main, w.jobs), w.main == Spawning(k));
    if c.live {
      FlightCount(c, w.t, k + 1, w.g.authOn);
    }
  }

  lemma NotifiedDispatched(w: World, k: nat)
    requires Inv(w) && w.main.Idle? && w.jobs == [] && k < |w.workers| && w.workers[k] == Notified
    ensures k < |w.conns| && w.conns[k].log.spawns == w.conns[k].log.dispatches == 1
  {
    var c := w.conns[k];
    assert WorkerOk(c, w.workers[k], [], false);
    hide ConnInv, TableOk, ObjectsOk, GatesOk, DeadOk, StatsOk, QueueOk;
  }

  // ---------------------------------------------------------------- release

  lemma EventReleases(w: World, s: Step, j: nat, o: Out, main: Main, k: nat)
    requires IsEvent(w, s, j, o, main) && k < |w.conns| && w.conns[k].live && !Next(w, s).w.conns[k].live
    ensures var w' := Next(w, s).w;
            && (forall fd :: fd in w'.t ==> w'.t[fd].data != k + 1)
            && Pool(w'.pool, w'.poolSize) == Release(Pool(w.pool, w.poolSize), w.conns[k].obj)
  {
    hide Next;
  }

  lemma OthersRelease(w: World, s: Step, k: nat)
    requires !RunsHandler(s) && Next(w, s).Ok? && k < |w.conns| && w.conns[k].live
    ensures k < |Next(w, s).w.conns| && Next(w, s).w.conns[k].live
  {
    hide OnRead, OnWrite, OnBlock, FinishSpawn, AfterRegister, Release;
  }

  /** A connection is released in the step that closes its last descriptor; its object is pooled while there is room. */
  lemma ReleasedOnce(w: World, s: Step, k: nat)
    requires Reachable(w) && Enabled(w, s) && Next(w, s).Ok? && k < |w.conns| && w.conns[k].live
    requires k < |Next(w, s).w.conns| && !Next(w, s).w.conns[k].live
    ensures var w' := Next(w, s).w;
            && (forall fd :: fd in w'.t ==> w'.t[fd].data != k + 1)
            && (if w.poolSize < MAX_POOL then w'.pool == [w.conns[k].obj] + w.pool && w'.poolSize == w.poolSize + 1
                else w'.pool == w.pool && w'.poolSize == w.poolSize)
  {
    hide Inv, Reachable, Next, Enabled, IsEvent;
    ReachableInv(w);
    if RunsHandler(s) {
      var j, o, main := EventOf(w, s);
      EventReleases(w, s, j, o, main, k);
    } else {
      OthersRelease(w, s, k);
    }
  }

  /**
   * A released connection still holds a list of addresses exactly if its name resolved and no attempt
   * ever got it an origin descriptor: the list is freed only where such a descriptor has had its answer.
   */
  lemma ListHeldIff(w: World, k: nat)
    requires Reachable(w) && k < |w.conns| && !w.conns[k].live
    ensures var c := w.conns[k];
            && (c.resolution != [] <==> c.log.resolved != [] && c.originFd == -1)
            && (c.resolution != [] ==> c.resolution == c.log.resolved)
  {
    hide Reachable, ConnsOk, TableOk, ObjectsOk, GatesOk, StatsOk, DnsOk, DrainOk, Conserved;
    ReachableInv(w);
    assert Ended(w.conns[k]);
  }
}
