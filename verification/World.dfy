/**
 * The whole proxy: every connection ever accepted, the selector table they share, the object pool,
 * the DNS threads with their job list, and the user table the monitor edits. A run is a sequence of
 * steps of the main loop and of the threads, in any order the mutex allows.
 */
module World {
  import opened Bytes
  import opened Selector
  import opened Session
  import opened SessionInvariant
  import opened SessionEngine
  import Accounts

  const MAX_POOL := 50

  /** The DNS thread of a connection: created, has its answer, has queued its job. */
  datatype Worker = NoWorker | Started | Resolved | Notified

  /**
   * Where the main thread stands: in pselect, inside request_process just after it created a thread,
   * or in handle_block_notifications with the mutex held and `rest` still to dispatch.
   */
  datatype Main = Idle | Spawning(k: nat) | Draining(rest: seq<int>)

  /** Connection k is attached to its descriptors as k + 1; 0 marks descriptors of somebody else. */
  datatype World = World(
    conns: seq<Conn>, workers: seq<Worker>, t: Table, g: Globals,
    pool: seq<nat>, poolSize: nat, jobs: seq<int>, main: Main)

  datatype Step =
    | Accept(fd: int, obj: nat, memory: bool)     // `fd` is -1 when accept fails; `obj` is what malloc would return
    | Readable(fd: int, io: Io)
    | Writable(fd: int, io: Io)
    | Proceed                                     // the main thread goes on after creating a thread
    | Lookup(k: nat, found: seq<Addr>)            // getaddrinfo returns in the thread of connection k
    | Notify(k: nat)                              // that thread takes the mutex and queues its job
    | DrainBegin | DrainNext(io: Io) | DrainEnd
    | Edit(ch: Accounts.Change)                   // the monitor adds or deletes a user
    | Foreign(t': Table)                          // the listening sockets and the monitor connections

  datatype Result = Crash | Ok(w: World)

  function Start(users: seq<User>, t: Table): World {
    World([], [], t, Globals(true, users, 0, 0, 0), [], 0, [], Idle)
  }

  /** Jobs queued and not dispatched yet. */
  function Pending(main: Main, jobs: seq<int>): seq<int> {
    if main.Draining? then main.rest else jobs
  }

  /** The connection a descriptor is attached to, or a number that is no connection. */
  function Attached(t: Table, fd: int): int {
    if fd in t then t[fd].data - 1 else -1
  }

  predicate IsLive(w: World, k: int) {
    0 <= k < |w.conns| == |w.workers| && w.conns[k].live
  }

  datatype Pool = Pool(objs: seq<nat>, size: nat)

  /** The end of socks5_destroy. The size counts releases: taking an object back does not lower it. */
  function Release(p: Pool, obj: nat): Pool {
    if p.size < MAX_POOL then Pool([obj] + p.objs, p.size + 1) else p
  }

  /** The world after an event on connection k, if the main thread then goes on as `main`. */
  function Put(w: World, k: nat, o: Out, main: Main): World
    requires k < |w.conns| == |w.workers| && o.Out?
  {
    var spawn := o.c.spawned && !w.conns[k].spawned;
    var p := if w.conns[k].live && !o.c.live then Release(Pool(w.pool, w.poolSize), o.c.obj)
             else Pool(w.pool, w.poolSize);
    World(w.conns[k := o.c], if spawn then w.workers[k := Started] else w.workers, o.t, o.g,
          p.objs, p.size, w.jobs, if spawn then Spawning(k) else main)
  }

  function Settled(w: World, k: nat, o: Out, main: Main): Result
    requires k < |w.conns| == |w.workers|
  {
    if o.Abort? then Crash else Ok(Put(w, k, o, main))
  }

  /** socksv5_passive_accept */
  function AfterAccept(w: World, fd: int, obj: nat, memory: bool): World {
    if fd == -1 || (w.pool == [] && !memory) then w else
    var mine := if w.pool == [] then obj else w.pool[0];
    var rest := if w.pool == [] then [] else w.pool[1..];
    var s := AfterRegister(w.t, fd, READ, |w.conns| + 1);
    if s.status != SUCCESS then
      var p := Release(Pool(rest, w.poolSize), mine);
      w.(pool := p.objs, poolSize := p.size)
    else
      w.(conns := w.conns + [NewConn(mine, fd)], workers := w.workers + [NoWorker], t := s.table, pool := rest)
  }

  function AfterEdit(w: World, ch: Accounts.Change): World {
    var users := Accounts.Changed(w.g.users, ch, Accounts.MAX_USERS);
    w.(g := w.g.(users := users))
  }

  function Next(w: World, s: Step): Result {
    match s
    case Accept(fd, obj, memory) => Ok(AfterAccept(w, fd, obj, memory))
    case Readable(fd, io) =>
      var k := Attached(w.t, fd);
      if !IsLive(w, k) then Crash else Settled(w, k, OnRead(w.conns[k], w.t, w.g, k + 1, fd, io), Idle)
    case Writable(fd, io) =>
      var k := Attached(w.t, fd);
      if !IsLive(w, k) then Crash else Settled(w, k, OnWrite(w.conns[k], w.t, w.g, k + 1, fd, io), Idle)
    case Proceed =>
      if !w.main.Spawning? || !IsLive(w, w.main.k) then Crash
      else Settled(w, w.main.k, FinishSpawn(w.conns[w.main.k], w.t, w.g), Idle)
    case Lookup(k, found) =>
      if !IsLive(w, k) then Crash
      else Ok(w.(conns := w.conns[k := Answered(w.conns[k], found)], workers := w.workers[k := Resolved]))
    case Notify(k) =>
      if !IsLive(w, k) then Crash
      else Ok(w.(jobs := [w.conns[k].clientFd] + w.jobs, workers := w.workers[k := Notified]))
    case DrainBegin => Ok(w.(main := Draining(w.jobs)))
    case DrainNext(io) => AfterDispatch(w, io)
    case DrainEnd => Ok(w.(main := Idle, jobs := []))
    case Edit(ch) => Ok(AfterEdit(w, ch))
    case Foreign(t') => Ok(w.(t := t'))
  }

  /** One turn of the loop of handle_block_notifications. */
  function AfterDispatch(w: World, io: Io): Result {
    if !w.main.Draining? || w.main.rest == [] then Crash else
    var fd, main := w.main.rest[0], Draining(w.main.rest[1..]);
    if fd !in w.t then Ok(w.(main := main)) else
    var k := Attached(w.t, fd);
    if !IsLive(w, k) then Crash
    else Settled(w, k, OnBlock(w.conns[k], w.t, w.g, k + 1, io), main)
  }

  /** What the kernel, the mutex and the order of the main loop allow. */
  ghost predicate Enabled(w: World, s: Step) {
    match s
    case Accept(fd, obj, memory) => w.main.Idle? && Unused(w.conns, w.pool, obj)
    case Readable(fd, io) =>
      w.main.Idle? && fd in w.t && w.t[fd].data != 0 && w.t[fd].interest.read
    case Writable(fd, io) =>
      && w.main.Idle? && fd in w.t && w.t[fd].data != 0 && w.t[fd].interest.write
      && (IsLive(w, Attached(w.t, fd)) ==> RetryWorks(w.conns[Attached(w.t, fd)], w.t, io))
    case Proceed => w.main.Spawning?
    case Lookup(k, found) => k < |w.workers| && w.workers[k] == Started
    case Notify(k) => k < |w.workers| && w.workers[k] == Resolved && !w.main.Draining?
    case DrainBegin => w.main.Idle?
    case DrainNext(io) => w.main.Draining? && w.main.rest != []
    case DrainEnd => w.main.Draining? && w.main.rest == []
    case Edit(ch) => w.main.Idle?
    case Foreign(t') => w.main.Idle? && Frame(w.t, t', 0)
  }

  /** malloc returns memory that is in no one's hands. */
  ghost predicate Unused(conns: seq<Conn>, pool: seq<nat>, obj: nat) {
    obj !in pool && forall k :: 0 <= k < |conns| && conns[k].live ==> conns[k].obj != obj
  }

  /** The assumption on address retries; see `RetryIffReaches` for what happens without it. */
  ghost predicate RetryWorks(c: Conn, t: Table, io: Io) {
    c.phase == RequestConnecting && WillRetry(c, io) ==> RetryReaches(c, t, io)
  }

  function Run(w: World, steps: seq<Step>): Result
    decreases |steps|
  {
    if steps == [] then Ok(w)
    else match Next(w, steps[0])
      case Crash => Crash
      case Ok(w1) => Run(w1, steps[1..])
  }

  ghost predicate Possible(w: World, steps: seq<Step>)
    decreases |steps|
  {
    steps == [] || (Enabled(w, steps[0]) && (Next(w, steps[0]).Ok? ==> Possible(Next(w, steps[0]).w, steps[1..])))
  }
}
