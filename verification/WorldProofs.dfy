/** Every step of any run keeps the invariant of the proxy, and none crashes it. */
module WorldProofs {
  import opened Bytes
  import opened Selector
  import opened Session
  import opened SessionInvariant
  import opened SessionProofs
  import opened SessionEngine
  import opened World
  import opened WorldInvariant
  import Accounts

  // ---------------------------------------------------------------- an event on one connection

  lemma OthersKept(conns: seq<Conn>, t: Table, authOn: bool, k: nat, o: Out)
    requires ConnsOk(conns, t, authOn) && k < |conns| && Kept(o, t, k + 1) && (o.g.authOn ==> authOn)
    ensures ConnsOk(conns[k := o.c], o.t, o.g.authOn)
  {
    hide ConnInv, Frame;
    forall j | 0 <= j < |conns| && j != k && conns[j].live ensures ConnInv(conns[j], o.t, j + 1, o.g.authOn) {
      FrameKeeps(conns[j], t, o.t, j + 1, k + 1, authOn);
      if authOn && !o.g.authOn {
        AuthFallKeeps(conns[j], o.t, j + 1);
      }
    }
  }

  lemma TableKept(conns: seq<Conn>, t: Table, k: nat, o: Out)
    requires TableOk(conns, t) && k < |conns| && conns[k].live && Kept(o, t, k + 1)
    ensures TableOk(conns[k := o.c], o.t)
  {
    hide ConnInv;
    forall fd | fd in o.t
      ensures o.t[fd].data == 0 || (o.t[fd].data <= |conns| && conns[k := o.c][o.t[fd].data - 1].live)
    {
      if o.t[fd].data != k + 1 {
        assert fd in t && t[fd] == o.t[fd];
      }
    }
  }

  lemma ReleaseKeeps(conns: seq<Conn>, pool: seq<nat>, poolSize: nat, obj: nat)
    requires ObjectsOk(conns, pool, poolSize) && Unused(conns, pool, obj)
    ensures var p := Release(Pool(pool, poolSize), obj); ObjectsOk(conns, p.objs, p.size)
  {
  }

  lemma ObjectsKept(w: World, k: nat, o: Out, main: Main)
    requires ObjectsOk(w.conns, w.pool, w.poolSize) && k < |w.conns| == |w.workers| && w.conns[k].live
    requires o.Out? && o.c.obj == w.conns[k].obj
    ensures var w' := Put(w, k, o, main); ObjectsOk(w'.conns, w'.pool, w'.poolSize)
  {
    var conns := w.conns[k := o.c];
    assert ObjectsOk(conns, w.pool, w.poolSize);
    if !o.c.live {
      assert Unused(conns, w.pool, o.c.obj);
      ReleaseKeeps(conns, w.pool, w.poolSize, o.c.obj);
    }
  }

  lemma GatesKept(conns: seq<Conn>, g: Globals, k: nat, o: Out)
    requires GatesOk(conns, g.authOn) && k < |conns| && o.Out? && (o.g.authOn ==> g.authOn)
    requires Opened(conns[k].log.gate, o.c.log.gate, o.g)
    ensures GatesOk(conns[k := o.c], o.g.authOn)
  {
  }

  lemma DeadKept(conns: seq<Conn>, t: Table, k: nat, o: Out)
    requires DeadOk(conns) && k < |conns| && Kept(o, t, k + 1)
    ensures DeadOk(conns[k := o.c])
  {
    hide Conserved, ConnInv, Frame;
  }

  // ---------------------------------------------------------------- statistics

  lemma {:induction false} SumUpdate(conns: seq<Conn>, k: nat, c: Conn, f: Conn -> int)
    requires k < |conns|
    ensures Sum(conns[k := c], f) == Sum(conns, f) + f(c) - f(conns[k])
    decreases |conns|
  {
    if k == 0 {
      assert conns[k := c][1..] == conns[1..];
    } else {
      assert conns[k := c][1..] == conns[1..][k - 1 := c];
      SumUpdate(conns[1..], k - 1, c, f);
    }
  }

  lemma {:induction false} SumAppend(conns: seq<Conn>, c: Conn, f: Conn -> int)
    ensures Sum(conns + [c], f) == Sum(conns, f) + f(c)
    decreases |conns|
  {
    if conns == [] {
      assert conns + [c] == [c] && [c][1..] == [];
    } else {
      assert (conns + [c])[1..] == conns[1..] + [c];
      SumAppend(conns[1..], c, f);
    }
  }

  lemma MovedSum(x: nat, x': nat, total: int, d: int)
    requires x == total % U32 && Moved(x, x', d)
    ensures x' == (total + d) % U32
  {
  }

  lemma StatsKept(conns: seq<Conn>, g: Globals, k: nat, o: Out)
    requires StatsOk(conns, g) && k < |conns| && o.Out?
    requires Moved(g.historic, o.g.historic, CopiedBit(o.c) - CopiedBit(conns[k]))
    requires Moved(g.current, o.g.current, CopyBit(o.c) - CopyBit(conns[k]))
    requires Moved(g.transferred, o.g.transferred, Delivered(o.c) - Delivered(conns[k]))
    ensures StatsOk(conns[k := o.c], o.g)
  {
    SumUpdate(conns, k, o.c, CopiedBit);
    SumUpdate(conns, k, o.c, CopyBit);
    SumUpdate(conns, k, o.c, Delivered);
    MovedSum(g.historic, o.g.historic, Sum(conns, CopiedBit), CopiedBit(o.c) - CopiedBit(conns[k]));
    MovedSum(g.current, o.g.current, Sum(conns, CopyBit), CopyBit(o.c) - CopyBit(conns[k]));
    MovedSum(g.transferred, o.g.transferred, Sum(conns, Delivered), Delivered(o.c) - Delivered(conns[k]));
    hide Moved, Delivered, CopyBit, CopiedBit, Sum;
  }

  lemma SmallStats(conns: seq<Conn>, g: Globals)
    requires StatsOk(conns, g)
    ensures Small(g)
  {
  }

  // ---------------------------------------------------------------- resolutions

  /** A live connection is attached to its client descriptor. */
  lemma AttachedClient(c: Conn, t: Table, k: nat, authOn: bool)
    requires ConnInv(c, t, k + 1, authOn)
    ensures c.clientFd in t && Attached(t, c.clientFd) == k
  {
  }

  lemma FlightCount(c: Conn, t: Table, id: nat, authOn: bool)
    requires ConnInv(c, t, id, authOn)
    ensures c.live
    ensures if InFlight(c) then c.log.spawns == 1 && c.log.dispatches == 0
            else !c.spawned && c.log.spawns == c.log.dispatches <= 1
  {
  }

  lemma NotInFlight(conns: seq<Conn>, t: Table, authOn: bool, pending: seq<int>, k: nat)
    requires ConnsOk(conns, t, authOn) && QueueOk(conns, t, pending)
    requires k < |conns| && conns[k].live && !InFlight(conns[k])
    ensures conns[k].clientFd !in pending
  {
    AttachedClient(conns[k], t, k, authOn);
  }

  lemma QueueKept(conns: seq<Conn>, t: Table, pending: seq<int>, k: nat, c: Conn, t': Table)
    requires QueueOk(conns, t, pending) && k < |conns| && Frame(t, t', k + 1)
    requires forall fd :: fd in pending ==> Attached(t, fd) != k
    ensures QueueOk(conns[k := c], t', pending)
  {
  }

  /** A connection with no resolution in flight either stays so or has just started its only one. */
  lemma OwnWorker(c: Conn, wk: Worker, jobs: seq<int>, t: Table, g: Globals, id: nat, o: Out)
    requires WorkerOk(c, wk, jobs, false) && !InFlight(c) && c.clientFd !in jobs
    requires Kept(o, t, id) && Tallied(c, g, o)
    ensures WorkerOk(o.c, if o.c.spawned then Started else wk, jobs, o.c.spawned)
  {
    if o.c.live {
      FlightCount(o.c, o.t, id, o.g.authOn);
    }
    hide ConnInv, Frame, Moved, Opened;
  }

  lemma WorkersKept(conns: seq<Conn>, workers: seq<Worker>, jobs: seq<int>, k: nat, c: Conn, wk: Worker)
    requires |workers| == |conns| && k < |conns| && WorkerOk(c, wk, jobs, c.spawned)
    requires forall j :: 0 <= j < |conns| ==> WorkerOk(conns[j], workers[j], jobs, false)
    ensures var main := if c.spawned then Spawning(k) else Idle;
            forall j :: 0 <= j < |conns| ==> WorkerOk(conns[k := c][j], workers[k := wk][j], jobs, main == Spawning(j))
  {
    hide WorkerOk;
  }

  /** An event on a connection with no resolution in flight; it may start one. */
  lemma DnsKept(w: World, k: nat, o: Out)
    requires Inv(w) && w.main.Idle? && k < |w.conns| && w.conns[k].live && !InFlight(w.conns[k])
    requires Kept(o, w.t, k + 1) && Tallied(w.conns[k], w.g, o)
    ensures var w' := Put(w, k, o, Idle);
            DnsOk(w'.conns, w'.workers, w'.t, Pending(w'.main, w'.jobs), w'.main) && DrainOk(w'.main, w'.jobs)
  {
    hide ConnsOk, ObjectsOk, GatesOk, DeadOk, StatsOk, TableOk, WorkerOk, QueueOk, Tallied, ConnInv, Frame;
    NotInFlight(w.conns, w.t, w.g.authOn, w.jobs, k);
    NotQueued(w.conns, w.t, w.jobs, k);
    QueueKept(w.conns, w.t, w.jobs, k, o.c, o.t);
    assert forall j :: 0 <= j < |w.conns| ==> WorkerOk(w.conns[j], w.workers[j], w.jobs, w.main == Spawning(j));
    OwnWorker(w.conns[k], w.workers[k], w.jobs, w.t, w.g, k + 1, o);
    hide Kept, InFlight;
    WorkersKept(w.conns, w.workers, w.jobs, k, o.c, if o.c.spawned then Started else w.workers[k]);
    assert w.workers[k := w.workers[k]] == w.workers;
  }

  lemma NotQueued(conns: seq<Conn>, t: Table, pending: seq<int>, k: nat)
    requires QueueOk(conns, t, pending) && k < |conns| && !InFlight(conns[k])
    ensures forall fd :: fd in pending ==> Attached(t, fd) != k
  {
  }

  /** The shared part of every event. */
  lemma EventKept(w: World, k: nat, o: Out, main: Main)
    requires Inv(w) && k < |w.conns| && w.conns[k].live && Kept(o, w.t, k + 1)
    requires Tallied(w.conns[k], w.g, o) || Tallied(Dispatched(w.conns[k]), w.g, o)
    ensures |w.workers| == |w.conns| && o.Out?
    ensures var w' := Put(w, k, o, main);
            && ConnsOk(w'.conns, w'.t, w'.g.authOn) && TableOk(w'.conns, w'.t)
            && ObjectsOk(w'.conns, w'.pool, w'.poolSize)
            && GatesOk(w'.conns, w'.g.authOn) && DeadOk(w'.conns) && StatsOk(w'.conns, w'.g)
  {
    hide ConnsOk, ObjectsOk, GatesOk, DeadOk, StatsOk, TableOk, Kept, WorkerOk, QueueOk, Moved, Opened, Hopped;
    assert CopiedBit(Dispatched(w.conns[k])) == CopiedBit(w.conns[k]) && o.Out?;
    OthersKept(w.conns, w.t, w.g.authOn, k, o);
    TableKept(w.conns, w.t, k, o);
    ObjectsKept(w, k, o, main);
    GatesKept(w.conns, w.g, k, o);
    DeadKept(w.conns, w.t, k, o);
    StatsKept(w.conns, w.g, k, o);
  }

  // ---------------------------------------------------------------- the steps

  lemma LiveAttached(w: World, fd: int)
    requires Inv(w) && fd in w.t && w.t[fd].data != 0
    ensures var k := Attached(w.t, fd); IsLive(w, k) && ConnInv(w.conns[k], w.t, k + 1, w.g.authOn) && Small(w.g)
  {
    SmallStats(w.conns, w.g);
  }

  /** The main thread is not inside a handler, so nobody is between creating a thread and the jump. */
  lemma NobodySpawned(w: World, k: nat)
    requires Inv(w) && !w.main.Spawning? && k < |w.conns| && w.conns[k].live
    ensures !w.conns[k].spawned
  {
    assert WorkerOk(w.conns[k], w.workers[k], Pending(w.main, w.jobs), false);
  }

  lemma QuietEvent(w: World, k: nat, o: Out)
    requires Inv(w) && w.main.Idle? && k < |w.conns| && w.conns[k].live && !InFlight(w.conns[k])
    requires Kept(o, w.t, k + 1) && Tallied(w.conns[k], w.g, o)
    ensures |w.workers| == |w.conns| && o.Out? && Inv(Put(w, k, o, Idle))
  {
    hide ConnInv, Kept, Tallied, ConnsOk, DnsOk, TableOk, ObjectsOk, GatesOk, DeadOk, StatsOk, Put;
    DnsKept(w, k, o);
    EventKept(w, k, o, Idle);
  }

  lemma ReadableKept(w: World, fd: int, io: Io)
    requires Inv(w) && Enabled(w, Readable(fd, io))
    ensures var k := Attached(w.t, fd);
            && IsLive(w, k) && !InFlight(w.conns[k])
            && var o := OnRead(w.conns[k], w.t, w.g, k + 1, fd, io);
               Kept(o, w.t, k + 1) && Tallied(w.conns[k], w.g, o)
  {
    hide ConnInv, OnRead, Kept, Tallied;
    LiveAttached(w, fd);
    var k := Attached(w.t, fd);
    NobodySpawned(w, k);
    hide Inv;
    OnReadKeeps(w.conns[k], w.t, w.g, k + 1, fd, io);
    ReadableWhere(w.conns[k], w.t, k + 1, w.g.authOn, fd);
  }

  lemma ReadableKeeps(w: World, fd: int, io: Io)
    requires Inv(w) && Enabled(w, Readable(fd, io))
    ensures var r := Next(w, Readable(fd, io)); r.Ok? && Inv(r.w)
  {
    hide Inv, OnRead, Kept, Tallied, Put, InFlight;
    ReadableKept(w, fd, io);
    var k := Attached(w.t, fd);
    QuietEvent(w, k, OnRead(w.conns[k], w.t, w.g, k + 1, fd, io));
  }

  lemma WritableKept(w: World, fd: int, io: Io)
    requires Inv(w) && Enabled(w, Writable(fd, io))
    ensures var k := Attached(w.t, fd);
            && IsLive(w, k) && !InFlight(w.conns[k])
            && var o := OnWrite(w.conns[k], w.t, w.g, k + 1, fd, io);
               Kept(o, w.t, k + 1) && Tallied(w.conns[k], w.g, o)
  {
    hide ConnInv, OnWrite, Kept, Tallied, WillRetry, RetryReaches;
    LiveAttached(w, fd);
    var k := Attached(w.t, fd);
    NobodySpawned(w, k);
    hide Inv;
    OnWriteKeeps(w.conns[k], w.t, w.g, k + 1, fd, io);
    WritableWhere(w.conns[k], w.t, k + 1, w.g.authOn, fd);
  }

  lemma WritableKeeps(w: World, fd: int, io: Io)
    requires Inv(w) && Enabled(w, Writable(fd, io))
    ensures var r := Next(w, Writable(fd, io)); r.Ok? && Inv(r.w)
  {
    hide Inv, OnWrite, Kept, Tallied, Put, InFlight, RetryWorks;
    WritableKept(w, fd, io);
    var k := Attached(w.t, fd);
    QuietEvent(w, k, OnWrite(w.conns[k], w.t, w.g, k + 1, fd, io));
  }

  // ---------------------------------------------------------------- the hand-off

  /** The thread has been created; whatever it did meanwhile, the jump to REQUEST_RESOLV comes now. */
  lemma ProceedDns(conns: seq<Conn>, workers: seq<Worker>, t: Table, jobs: seq<int>, k: nat, c: Conn, t': Table)
    requires DnsOk(conns, workers, t, jobs, Spawning(k)) && k < |conns| && conns[k].live && conns[k].spawned
    requires c.live && c.phase == RequestResolv && !c.spawned && c.clientFd == conns[k].clientFd
    requires Frame(t, t', k + 1) && c.clientFd in t' && Attached(t', c.clientFd) == k
    ensures DnsOk(conns[k := c], workers, t', jobs, Idle)
  {
    QueueMoves(conns, t, jobs, k, c, t');
    assert WorkerOk(conns[k], workers[k], jobs, true);
    assert WorkerOk(c, workers[k], jobs, false);
    hide WorkerOk, QueueOk, Frame;
  }

  lemma QueueMoves(conns: seq<Conn>, t: Table, jobs: seq<int>, k: nat, c: Conn, t': Table)
    requires QueueOk(conns, t, jobs) && k < |conns| && Frame(t, t', k + 1)
    requires c.live && InFlight(c) && c.clientFd == conns[k].clientFd && Attached(t', c.clientFd) == k
    ensures QueueOk(conns[k := c], t', jobs)
  {
    forall fd | fd in jobs ensures Attached(t', fd) == Attached(t, fd) {
      if Attached(t, fd) == k {
        assert fd == c.clientFd;
      } else {
        assert fd in t && t[fd].data != k + 1;
      }
    }
    hide Frame;
  }

  lemma SpawningIsLive(w: World)
    requires Inv(w) && w.main.Spawning?
    ensures var k := w.main.k; IsLive(w, k) && w.conns[k].spawned && ConnInv(w.conns[k], w.t, k + 1, w.g.authOn)
    ensures Small(w.g)
  {
    hide ConnInv, ObjectsOk, GatesOk, DeadOk, TableOk, QueueOk;
    var k := w.main.k;
    assert WorkerOk(w.conns[k], w.workers[k], w.jobs, true);
    SmallStats(w.conns, w.g);
  }

  lemma KeptLive(o: Out, t: Table, k: nat)
    requires Kept(o, t, k + 1) && o.c.live
    ensures Frame(t, o.t, k + 1) && o.c.clientFd in o.t && Attached(o.t, o.c.clientFd) == k
  {
    AttachedClient(o.c, o.t, k, o.g.authOn);
  }

  lemma TalliedClient(c: Conn, g: Globals, o: Out)
    requires Tallied(c, g, o)
    ensures o.Out? && o.c.clientFd == c.clientFd
  {
  }

  lemma ProceedKeeps(w: World)
    requires Inv(w) && Enabled(w, Proceed)
    ensures var r := Next(w, Proceed); r.Ok? && Inv(r.w)
  {
    hide ConnInv, Kept, Tallied, ConnsOk, DnsOk, TableOk, ObjectsOk, GatesOk, DeadOk, StatsOk, FinishSpawn, Frame;
    SpawningIsLive(w);
    var k := w.main.k;
    OnSpawnedKeeps(w.conns[k], w.t, w.g, k + 1);
    var o := FinishSpawn(w.conns[k], w.t, w.g);
    KeptLive(o, w.t, k);
    TalliedClient(w.conns[k], w.g, o);
    ProceedDns(w.conns, w.workers, w.t, w.jobs, k, o.c, o.t);
    EventKept(w, k, o, Idle);
    assert Put(w, k, o, Idle).workers == w.workers by { hide Release; }
  }

  /** A started or resolved thread belongs to a live connection with its resolution in flight. */
  lemma WorkerInFlight(w: World, k: nat)
    requires Inv(w) && k < |w.workers| && (w.workers[k] == Started || w.workers[k] == Resolved)
    ensures IsLive(w, k) && InFlight(w.conns[k]) && ConnInv(w.conns[k], w.t, k + 1, w.g.authOn)
    ensures w.conns[k].clientFd !in Pending(w.main, w.jobs)
  {
    hide ConnInv, ObjectsOk, GatesOk, DeadOk, StatsOk, TableOk, QueueOk;
    assert WorkerOk(w.conns[k], w.workers[k], Pending(w.main, w.jobs), w.main == Spawning(k));
  }

  lemma LookupDns(w: World, k: nat, c: Conn)
    requires Inv(w) && k < |w.conns| && |w.workers| == |w.conns|
    requires w.conns[k].live && InFlight(w.conns[k]) && w.conns[k].clientFd !in Pending(w.main, w.jobs)
    requires c.live && InFlight(c) && c.spawned == w.conns[k].spawned && c.clientFd == w.conns[k].clientFd
    ensures DnsOk(w.conns[k := c], w.workers[k := Resolved], w.t, Pending(w.main, w.jobs), w.main)
  {
    hide ConnsOk, ObjectsOk, GatesOk, DeadOk, StatsOk, TableOk;
    assert WorkerOk(w.conns[k], w.workers[k], Pending(w.main, w.jobs), w.main == Spawning(k));
  }

  lemma LookupKeeps(w: World, k: nat, found: seq<Addr>)
    requires Inv(w) && Enabled(w, Lookup(k, found))
    ensures var r := Next(w, Lookup(k, found)); r.Ok? && Inv(r.w)
  {
    hide ConnsOk, ConnInv, ObjectsOk, TableOk, GatesOk, DeadOk, DnsOk, StatsOk, DrainOk, Kept, Tallied;
    WorkerInFlight(w, k);
    SmallStats(w.conns, w.g);
    var c := w.conns[k];
    var o := Out(Answered(c, found), w.t, w.g, c.phase);
    AnswerKeeps(c, w.t, w.g, k + 1, found);
    EventKept(w, k, o, w.main);
    LookupDns(w, k, o.c);
    assert Put(w, k, o, w.main) == w.(conns := w.conns[k := o.c]);
  }

  lemma OneMoreJob(c: Conn, wk: Worker, jobs: seq<int>, spawning: bool, fd: int)
    requires WorkerOk(c, wk, jobs, spawning) && (c.live ==> c.clientFd != fd)
    ensures WorkerOk(c, wk, [fd] + jobs, spawning)
  {
  }

  lemma JobQueued(conns: seq<Conn>, t: Table, jobs: seq<int>, k: nat)
    requires QueueOk(conns, t, jobs) && k < |conns| && conns[k].live && InFlight(conns[k])
    requires conns[k].clientFd !in jobs && Attached(t, conns[k].clientFd) == k
    ensures QueueOk(conns, t, [conns[k].clientFd] + jobs)
  {
  }

  lemma NotifyDns(conns: seq<Conn>, workers: seq<Worker>, t: Table, jobs: seq<int>, main: Main, k: nat, authOn: bool)
    requires DnsOk(conns, workers, t, jobs, main) && ConnsOk(conns, t, authOn)
    requires k < |conns| && conns[k].live && InFlight(conns[k]) && conns[k].clientFd !in jobs
    ensures DnsOk(conns, workers[k := Notified], t, [conns[k].clientFd] + jobs, main)
  {
    hide ConnInv, QueueOk, WorkerOk;
    var fd := conns[k].clientFd;
    AttachedClient(conns[k], t, k, authOn);
    JobQueued(conns, t, jobs, k);
    NotifiedOk(conns[k], workers[k], jobs, main == Spawning(k));
    forall j | 0 <= j < |conns| && j != k
      ensures WorkerOk(conns[j], workers[j], [fd] + jobs, main == Spawning(j))
    {
      if conns[j].live {
        AttachedClient(conns[j], t, j, authOn);
      }
      OneMoreJob(conns[j], workers[j], jobs, main == Spawning(j), fd);
    }
  }

  lemma NotifiedOk(c: Conn, wk: Worker, jobs: seq<int>, spawning: bool)
    requires WorkerOk(c, wk, jobs, spawning) && c.live && InFlight(c)
    ensures WorkerOk(c, Notified, [c.clientFd] + jobs, spawning)
  {
  }

  lemma NotifyKeeps(w: World, k: nat)
    requires Inv(w) && Enabled(w, Notify(k))
    ensures var r := Next(w, Notify(k)); r.Ok? && Inv(r.w)
  {
    hide ConnsOk, ObjectsOk, TableOk, GatesOk, DeadOk, DnsOk, StatsOk, InFlight, ConnInv;
    WorkerInFlight(w, k);
    NotifyDns(w.conns, w.workers, w.t, w.jobs, w.main, k, w.g.authOn);
  }

  lemma DrainBeginKeeps(w: World)
    requires Inv(w) && Enabled(w, DrainBegin)
    ensures var r := Next(w, DrainBegin); r.Ok? && Inv(r.w)
  {
    hide ConnsOk, ObjectsOk, TableOk, GatesOk, DeadOk, StatsOk, QueueOk, WorkerOk;
  }

  lemma DrainEndKeeps(w: World)
    requires Inv(w) && Enabled(w, DrainEnd)
    ensures var r := Next(w, DrainEnd); r.Ok? && Inv(r.w)
  {
    hide ConnsOk, ObjectsOk, TableOk, GatesOk, DeadOk, StatsOk, QueueOk, WorkerOk;
  }

  /** The job at the head of the list: its connection is in REQUEST_RESOLV, with its answer. */
  lemma HeadJob(w: World)
    requires Inv(w) && w.main.Draining? && w.main.rest != []
    ensures var fd := w.main.rest[0];
            var k := Attached(w.t, fd);
            && fd in w.t && IsLive(w, k) && ConnInv(w.conns[k], w.t, k + 1, w.g.authOn) && Small(w.g)
            && w.conns[k].phase == RequestResolv && !w.conns[k].spawned && w.conns[k].clientFd == fd
            && w.workers[k] == Notified
  {
    hide ConnInv, ObjectsOk, GatesOk, DeadOk, TableOk;
    SmallStats(w.conns, w.g);
    var fd := w.main.rest[0];
    assert fd in w.main.rest;
    var k := Attached(w.t, fd);
    assert WorkerOk(w.conns[k], w.workers[k], w.main.rest, false);
  }

  /** Dispatching the head leaves the other resolutions as they were. */
  lemma OneJobLess(c: Conn, wk: Worker, rest: seq<int>, spawning: bool)
    requires rest != [] && WorkerOk(c, wk, rest, spawning) && (c.live ==> c.clientFd != rest[0])
    ensures WorkerOk(c, wk, rest[1..], spawning)
  {
    assert forall fd :: fd in rest <==> fd == rest[0] || fd in rest[1..];
  }

  lemma JobTaken(conns: seq<Conn>, t: Table, rest: seq<int>, k: nat, c: Conn, t': Table)
    requires rest != [] && QueueOk(conns, t, rest) && k < |conns| && Attached(t, rest[0]) == k && Frame(t, t', k + 1)
    ensures QueueOk(conns[k := c], t', rest[1..])
  {
    forall fd | fd in rest[1..] ensures fd in rest && fd != rest[0] && Attached(t, fd) != k {
      assert exists i :: 1 <= i < |rest| && rest[i] == fd;
    }
    assert QueueOk(conns, t, rest[1..]);
    hide Frame;
    QueueKept(conns, t, rest[1..], k, c, t');
  }

  /** After its dispatch a connection is done with its resolution. */
  lemma Dispatches(c: Conn, t: Table, g: Globals, id: nat, o: Out)
    requires ConnInv(c, t, id, g.authOn) && c.phase == RequestResolv && !c.spawned
    requires Kept(o, t, id) && Tallied(Dispatched(c), g, o)
    ensures o.Out? && !o.c.spawned && Frame(t, o.t, id)
    ensures forall rest {:trigger WorkerOk(o.c, Notified, rest, false)} :: WorkerOk(o.c, Notified, rest, false)
  {
    FlightCount(c, t, id, g.authOn);
    if o.c.live {
      FlightCount(o.c, o.t, id, o.g.authOn);
    }
    hide ConnInv, Moved, Opened, Frame;
  }

  lemma DispatchDns(conns: seq<Conn>, workers: seq<Worker>, t: Table, rest: seq<int>, k: nat, authOn: bool,
                    c: Conn, t': Table)
    requires rest != [] && DnsOk(conns, workers, t, rest, Draining(rest)) && ConnsOk(conns, t, authOn)
    requires k < |conns| && conns[k].clientFd == rest[0] && Attached(t, rest[0]) == k && workers[k] == Notified
    requires Frame(t, t', k + 1) && WorkerOk(c, Notified, rest[1..], false)
    ensures DnsOk(conns[k := c], workers, t', rest[1..], Draining(rest[1..]))
  {
    hide ConnInv, Frame, QueueOk, WorkerOk;
    JobTaken(conns, t, rest, k, c, t');
    forall j | 0 <= j < |conns| && j != k ensures WorkerOk(conns[j], workers[j], rest[1..], false) {
      assert WorkerOk(conns[j], workers[j], rest, Draining(rest) == Spawning(j));
      if conns[j].live {
        AttachedClient(conns[j], t, j, authOn);
      }
      OneJobLess(conns[j], workers[j], rest, false);
    }
  }

  lemma DrainNextKeeps(w: World, io: Io)
    requires Inv(w) && Enabled(w, DrainNext(io))
    ensures var r := Next(w, DrainNext(io)); r.Ok? && Inv(r.w)
  {
    hide ConnInv, Kept, Tallied, ConnsOk, DnsOk, TableOk, ObjectsOk, GatesOk, DeadOk, StatsOk, OnBlock, WorkerOk, Frame;
    HeadJob(w);
    var k := Attached(w.t, w.main.rest[0]);
    OnBlockKeeps(w.conns[k], w.t, w.g, k + 1, io);
    var o := OnBlock(w.conns[k], w.t, w.g, k + 1, io);
    Dispatches(w.conns[k], w.t, w.g, k + 1, o);
    DispatchDns(w.conns, w.workers, w.t, w.main.rest, k, w.g.authOn, o.c, o.t);
    EventKept(w, k, o, Draining(w.main.rest[1..]));
  }

  // ---------------------------------------------------------------- accept, edits, other descriptors

  lemma AllFramed(conns: seq<Conn>, t: Table, t': Table, other: nat, authOn: bool)
    requires ConnsOk(conns, t, authOn) && Frame(t, t', other) && (other == 0 || other > |conns|)
    ensures ConnsOk(conns, t', authOn)
  {
    hide ConnInv, Frame;
    forall k | 0 <= k < |conns| && conns[k].live ensures ConnInv(conns[k], t', k + 1, authOn) {
      FrameKeeps(conns[k], t, t', k + 1, other, authOn);
    }
  }

  lemma QueueFramed(conns: seq<Conn>, t: Table, pending: seq<int>, t': Table, other: nat)
    requires QueueOk(conns, t, pending) && Frame(t, t', other) && (other == 0 || other > |conns|)
    ensures QueueOk(conns, t', pending)
  {
    forall fd | fd in pending ensures Attached(t', fd) == Attached(t, fd) {
      assert fd in t && t[fd].data != other;
    }
  }

  lemma TableFramed(conns: seq<Conn>, t: Table, t': Table)
    requires TableOk(conns, t) && Frame(t, t', 0)
    ensures TableOk(conns, t')
  {
  }

  lemma ForeignKeeps(w: World, t': Table)
    requires Inv(w) && Enabled(w, Foreign(t'))
    ensures var r := Next(w, Foreign(t')); r.Ok? && Inv(r.w)
  {
    hide ConnsOk, ObjectsOk, TableOk, GatesOk, DeadOk, StatsOk, QueueOk, WorkerOk, Frame;
    AllFramed(w.conns, w.t, t', 0, w.g.authOn);
    QueueFramed(w.conns, w.t, w.jobs, t', 0);
    TableFramed(w.conns, w.t, t');
  }

  lemma EditKeeps(w: World, ch: Accounts.Change)
    requires Inv(w) && Enabled(w, Edit(ch))
    ensures var r := Next(w, Edit(ch)); r.Ok? && Inv(r.w)
  {
    hide ConnsOk, ObjectsOk, TableOk, DnsOk, GatesOk, DeadOk, Sum, Accounts.Changed;
  }

  lemma PoolTaken(w: World, obj: nat)
    requires Inv(w) && Unused(w.conns, w.pool, obj)
    ensures var mine := if w.pool == [] then obj else w.pool[0];
            var rest := if w.pool == [] then [] else w.pool[1..];
            ObjectsOk(w.conns, rest, w.poolSize) && Unused(w.conns, rest, mine)
  {
    hide ConnsOk, TableOk, GatesOk, DeadOk, StatsOk, DnsOk;
  }

  lemma TableJoined(conns: seq<Conn>, t: Table, c: Conn, fd: int)
    requires TableOk(conns, t) && c.live
    ensures TableOk(conns + [c], t[fd := Item(READ, |conns| + 1)])
    ensures forall k :: k in t ==> t[k].data != |conns| + 1
  {
  }

  lemma ObjectsJoined(conns: seq<Conn>, pool: seq<nat>, size: nat, c: Conn)
    requires ObjectsOk(conns, pool, size) && Unused(conns, pool, c.obj)
    ensures ObjectsOk(conns + [c], pool, size)
  {
  }

  lemma ConnsJoined(conns: seq<Conn>, t: Table, c: Conn, t': Table, authOn: bool)
    requires ConnsOk(conns, t, authOn) && Frame(t, t', |conns| + 1) && ConnInv(c, t', |conns| + 1, authOn)
    ensures ConnsOk(conns + [c], t', authOn)
  {
    hide ConnInv, Frame;
    AllFramed(conns, t, t', |conns| + 1, authOn);
  }

  lemma Registers(w: World, mine: nat, rest: seq<nat>, fd: int)
    requires Inv(w) && ObjectsOk(w.conns, rest, w.poolSize) && Unused(w.conns, rest, mine)
    requires !InvalidFd(fd) && fd !in w.t
    ensures var conns, t := w.conns + [NewConn(mine, fd)], w.t[fd := Item(READ, |w.conns| + 1)];
            ConnsOk(conns, t, w.g.authOn) && TableOk(conns, t) && ObjectsOk(conns, rest, w.poolSize)
            && Frame(w.t, t, |w.conns| + 1)
  {
    var c, t := NewConn(mine, fd), w.t[fd := Item(READ, |w.conns| + 1)];
    hide ConnInv, Frame, ConnsOk, TableOk, ObjectsOk, StatsOk, GatesOk, DeadOk, DnsOk, Unused;
    TableJoined(w.conns, w.t, c, fd);
    NewConnKeeps(mine, fd, w.t, |w.conns| + 1, w.g.authOn);
    ConnsJoined(w.conns, w.t, c, t, w.g.authOn);
    ObjectsJoined(w.conns, rest, w.poolSize, c);
  }

  lemma JoinsIdle(w: World, c: Conn, t: Table)
    requires Inv(w) && w.main.Idle? && c.live && !InFlight(c) && c.log.spawns == c.log.dispatches == 0
    requires Frame(w.t, t, |w.conns| + 1)
    ensures DnsOk(w.conns + [c], w.workers + [NoWorker], t, w.jobs, w.main)
  {
    var conns, workers := w.conns + [c], w.workers + [NoWorker];
    QueueFramed(w.conns, w.t, w.jobs, t, |w.conns| + 1);
    hide ConnsOk, ObjectsOk, TableOk, GatesOk, DeadOk, StatsOk, Frame;
    assert forall k :: 0 <= k < |conns| ==> conns[k] == if k < |w.conns| then w.conns[k] else c;
    assert QueueOk(conns, t, w.jobs);
    hide QueueOk;
    assert forall k :: 0 <= k < |conns| ==> workers[k] == if k < |w.conns| then w.workers[k] else NoWorker;
    assert WorkerOk(c, NoWorker, w.jobs, false);
  }

  lemma JoinsQuietly(w: World, c: Conn)
    requires Inv(w) && c.live && c.log.gate == Shut && CopiedBit(c) == 0 && CopyBit(c) == 0 && Delivered(c) == 0
    ensures GatesOk(w.conns + [c], w.g.authOn) && DeadOk(w.conns + [c]) && StatsOk(w.conns + [c], w.g)
  {
    SumAppend(w.conns, c, CopiedBit);
    SumAppend(w.conns, c, CopyBit);
    SumAppend(w.conns, c, Delivered);
    hide ConnsOk, ObjectsOk, TableOk, DnsOk, Sum, Conserved;
    var conns := w.conns + [c];
    assert forall k :: 0 <= k < |conns| ==> conns[k] == if k < |w.conns| then w.conns[k] else c;
  }

  lemma AcceptKeeps(w: World, fd: int, obj: nat, memory: bool)
    requires Inv(w) && Enabled(w, Accept(fd, obj, memory))
    ensures var r := Next(w, Accept(fd, obj, memory)); r.Ok? && Inv(r.w)
  {
    hide ConnsOk, ObjectsOk, TableOk, GatesOk, DeadOk, StatsOk, DnsOk, Unused, InFlight, CopiedBit, CopyBit;
    hide Delivered, Frame;
    var mine := if w.pool == [] then obj else w.pool[0];
    var rest := if w.pool == [] then [] else w.pool[1..];
    var c, t := NewConn(mine, fd), w.t[fd := Item(READ, |w.conns| + 1)];
    PoolTaken(w, obj);
    if !InvalidFd(fd) && fd !in w.t {
      NewConnIsQuiet(mine, fd);
      Registers(w, mine, rest, fd);
      JoinsIdle(w, c, t);
      JoinsQuietly(w, c);
    } else {
      ReleaseKeeps(w.conns, rest, w.poolSize, mine);
    }
  }

  lemma NewConnIsQuiet(obj: nat, fd: int)
    ensures var c := NewConn(obj, fd); !InFlight(c) && CopiedBit(c) == 0 && CopyBit(c) == 0 && Delivered(c) == 0
  {
  }

  // ---------------------------------------------------------------- runs

  /** No step crashes the proxy, and every step keeps the invariant. */
  lemma StepKeeps(w: World, s: Step)
    requires Inv(w) && Enabled(w, s)
    ensures Next(w, s).Ok? && Inv(Next(w, s).w)
  {
    hide Inv, Enabled, Next;
    match s {
      case Accept(fd, obj, memory) => AcceptKeeps(w, fd, obj, memory);
      case Readable(fd, io) => ReadableKeeps(w, fd, io);
      case Writable(fd, io) => WritableKeeps(w, fd, io);
      case Proceed => ProceedKeeps(w);
      case Lookup(k, found) => LookupKeeps(w, k, found);
      case Notify(k) => NotifyKeeps(w, k);
      case DrainBegin => DrainBeginKeeps(w);
      case DrainNext(io) => DrainNextKeeps(w, io);
      case DrainEnd => DrainEndKeeps(w);
      case Edit(ch) => EditKeeps(w, ch);
      case Foreign(t') => ForeignKeeps(w, t');
    }
  }

  lemma {:induction false} RunKeeps(w: World, steps: seq<Step>)
    requires Inv(w) && Possible(w, steps)
    ensures Run(w, steps).Ok? && Inv(Run(w, steps).w)
    decreases |steps|
  {
    hide Inv, Enabled, Next;
    if steps != [] {
      StepKeeps(w, steps[0]);
      RunKeeps(Next(w, steps[0]).w, steps[1..]);
    }
  }

  lemma StartKeeps(users: seq<User>, t: Table)
    requires forall fd :: fd in t ==> t[fd].data == 0
    ensures Inv(Start(users, t))
  {
  }
}
