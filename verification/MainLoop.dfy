/**
 * The main loop of selector.c: a pass over the descriptors that pselect reported, then the jobs of
 * the DNS threads. Each round is shown to be a run of the steps of `World`, so that everything proved
 * of reachable worlds holds of the loop, whatever the kernel, the threads and the peers do meanwhile.
 */
module MainLoop {
  import opened Bytes
  import opened Selector
  import opened Session
  import opened SessionInvariant
  import opened SessionEngine
  import opened World
  import opened WorldInvariant
  import opened WorldProofs
  import opened Guarantees
  import Accounts

  /** What a handler meets: the answers of the kernel, or what a descriptor of somebody else does. */
  datatype Event = Event(io: Io, other: Step)

  /** A point in the life of the loop: the round, the descriptor or job, the stage of its service. */
  datatype Moment = Moment(round: nat, place: int, stage: nat)

  /**
   * The rest of the system, which may react differently each time, even to the same state. Every
   * question the loop asks it is asked at a moment of its own.
   */
  datatype Env = Env(round: nat, threads: (Moment, World) -> seq<Step>, event: (Moment, World, int, bool) -> Event) {

    function At(place: int, stage: nat): Moment {
      Moment(round, place, stage)
    }

    function Later(): Env {
      this.(round := round + 1)
    }
  }

  predicate OfThread(s: Step) {
    s.Lookup? || s.Notify?
  }

  predicate OfOthers(s: Step) {
    s.Accept? || s.Edit? || s.Foreign?
  }

  ghost predicate ThreadsOk(w: World, steps: seq<Step>) {
    (forall s :: s in steps ==> OfThread(s)) && Possible(w, steps)
  }

  ghost predicate EventOk(w: World, fd: int, writing: bool, e: Event) {
    && OfOthers(e.other) && Enabled(w, e.other)
    && (writing && IsLive(w, Attached(w.t, fd)) ==> RetryWorks(w.conns[Attached(w.t, fd)], w.t, e.io))
  }

  /** The system does only what it can do. */
  ghost predicate EnvOk(env: Env) {
    && (forall m, w :: Reachable(w) ==> ThreadsOk(w, env.threads(m, w)))
    && (forall m, w, fd, writing ::
          Reachable(w) && w.main.Idle? ==> EventOk(w, fd, writing, env.event(m, w, fd, writing)))
  }

  // ---------------------------------------------------------------- one round

  function Then(r: Result, s: Step): Result {
    match r case Crash => Crash case Ok(w) => Next(w, s)
  }

  /** A handler that has just created a thread goes on while that thread may already run. */
  function Resume(r: Result, env: Env, m: Moment): Result {
    if r.Ok? && r.w.main.Spawning? then Then(Run(r.w, env.threads(m, r.w)), Proceed) else r
  }

  /** handle_read or handle_write of a descriptor in use. */
  function React(w: World, fd: int, writing: bool, env: Env): Result
    requires fd in w.t
  {
    var m := env.At(fd, if writing then 2 else 1);
    var e := env.event(m, w, fd, writing);
    if w.t[fd].data == 0 then Next(w, e.other)
    else Resume(Next(w, if writing then Writable(fd, e.io) else Readable(fd, e.io)), env, m)
  }

  /** The interest is looked at again before each call: an earlier handler may have changed it. */
  function Half(w: World, fd: int, writing: bool, ready: set<int>, env: Env): Result {
    if fd in w.t && fd in ready && (if writing then w.t[fd].interest.write else w.t[fd].interest.read)
    then React(w, fd, writing, env) else Ok(w)
  }

  function Visit(w: World, fd: int, slaveR: set<int>, slaveW: set<int>, env: Env): Result {
    match Run(w, env.threads(env.At(fd, 0), w))
    case Crash => Crash
    case Ok(w0) =>
      match Half(w0, fd, false, slaveR, env)
      case Crash => Crash
      case Ok(w1) => Half(w1, fd, true, slaveW, env)
  }

  /** Descriptors i to n - 1 in order. */
  function Pass(w: World, i: nat, n: nat, slaveR: set<int>, slaveW: set<int>, env: Env): Result
    decreases n - i
  {
    if i >= n then Ok(w)
    else match Visit(w, i, slaveR, slaveW, env)
      case Crash => Crash
      case Ok(w1) => Pass(w1, i + 1, n, slaveR, slaveW, env)
  }

  /** The job with `n` more behind it. */
  function Dispatch(w: World, n: nat, env: Env): Result {
    var m := env.At(-1, n);
    match Run(w, env.threads(m, w))
    case Crash => Crash
    case Ok(w0) => Next(w0, DrainNext(env.event(m, w0, -1, false).io))
  }

  function DispatchAll(w: World, n: nat, env: Env): Result
    decreases n
  {
    if n == 0 then Ok(w)
    else match Dispatch(w, n - 1, env)
      case Crash => Crash
      case Ok(w1) => DispatchAll(w1, n - 1, env)
  }

  /** handle_block_notifications */
  function Drain(w: World, env: Env): Result {
    Then(DispatchAll(w.(main := Draining(w.jobs)), |w.jobs|, env), DrainEnd)
  }

  /** selector_select after pselect: a signal skips the pass, an error of pselect also the jobs. */
  datatype Wake = Failed | Interrupted | Woken(slaveR: set<int>, slaveW: set<int>, n: nat)

  function Select(w: World, wake: Wake, env: Env): Result {
    match wake
    case Failed => Ok(w)
    case Interrupted => Drain(w, env)
    case Woken(slaveR, slaveW, n) =>
      match Pass(w, 0, n, slaveR, slaveW, env)
      case Crash => Crash
      case Ok(w1) => Drain(w1, env)
  }

  /** The loop of the server. */
  function Serve(w: World, wakes: seq<Wake>, env: Env): Result
    decreases |wakes|
  {
    if wakes == [] then Ok(w)
    else match Select(w, wakes[0], env)
      case Crash => Crash
      case Ok(w1) => Serve(w1, wakes[1..], env.Later())
  }

  // ---------------------------------------------------------------- rounds are runs

  /** Some run goes from one world to the other. */
  ghost predicate Leads(w: World, w': World) {
    exists steps :: Possible(w, steps) && Run(w, steps) == Ok(w')
  }

  lemma LeadsSelf(w: World)
    ensures Leads(w, w)
  {
    assert Possible(w, []) && Run(w, []) == Ok(w);
  }

  lemma {:induction false} RunsJoin(w: World, a: seq<Step>, b: seq<Step>)
    requires Possible(w, a) && Run(w, a).Ok? && Possible(Run(w, a).w, b)
    ensures Possible(w, a + b) && Run(w, a + b) == Run(Run(w, a).w, b)
    decreases |a|
  {
    hide Next, Enabled;
    if a == [] {
      assert a + b == b;
    } else {
      assert (a + b)[0] == a[0] && (a + b)[1..] == a[1..] + b;
      RunsJoin(Next(w, a[0]).w, a[1..], b);
    }
  }

  lemma LeadsChains(u: World, v: World, w: World)
    requires Leads(u, v) && Leads(v, w)
    ensures Leads(u, w)
  {
    hide Run, Possible;
    var a :| Possible(u, a) && Run(u, a) == Ok(v);
    var b :| Possible(v, b) && Run(v, b) == Ok(w);
    RunsJoin(u, a, b);
    assert Run(u, a + b) == Ok(w);
  }

  /** What every part of the loop establishes: no crash, and a run that explains it. */
  ghost predicate Explained(w: World, r: Result) {
    r.Ok? && Reachable(r.w) && Leads(w, r.w)
  }

  lemma ExplainedSelf(w: World)
    requires Reachable(w)
    ensures Explained(w, Ok(w))
  {
    LeadsSelf(w);
  }

  lemma ExplainedChains(u: World, v: World, r: Result)
    requires Explained(u, Ok(v)) && Explained(v, r)
    ensures Explained(u, r)
  {
    hide Reachable, Leads;
    LeadsChains(u, v, r.w);
  }

  lemma ExplainedStep(w: World, s: Step)
    requires Reachable(w) && Enabled(w, s)
    ensures Explained(w, Next(w, s))
  {
    hide Reachable, Next, Enabled;
    NeverAborts(w, s);
    var w' := Next(w, s).w;
    assert [s][1..] == [];
    assert Possible(w', []) && Run(w', []) == Ok(w');
    assert Possible(w, [s]) && Run(w, [s]) == Ok(w');
  }

  /** Threads come and go without moving the main thread. */
  lemma {:induction false} ThreadsExplained(w: World, steps: seq<Step>)
    requires Reachable(w) && ThreadsOk(w, steps)
    ensures Explained(w, Run(w, steps)) && Run(w, steps).w.main == w.main
    ensures w.main.Draining? ==> Run(w, steps).w.jobs == w.jobs
    decreases |steps|
  {
    if steps == [] {
      ExplainedSelf(w);
    } else {
      var s := steps[0];
      assert s in steps;
      ExplainedStep(w, s);
      ThreadStays(w, s);
      hide Explained, Next, Enabled;
      var w1 := Next(w, s).w;
      assert Explained(w, Ok(w1)) && Reachable(w1) by { ExplainedOk(w, Next(w, s)); }
      assert forall x :: x in steps[1..] ==> x in steps;
      ThreadsExplained(w1, steps[1..]);
      ExplainedChains(w, w1, Run(w1, steps[1..]));
    }
  }

  lemma ExplainedOk(w: World, r: Result)
    requires Explained(w, r)
    ensures r.Ok? && r == Ok(r.w) && Reachable(r.w)
  {
  }

  lemma ThreadStays(w: World, s: Step)
    requires OfThread(s) && Enabled(w, s) && Next(w, s).Ok?
    ensures Next(w, s).w.main == w.main && (w.main.Draining? ==> Next(w, s).w.jobs == w.jobs)
  {
  }

  lemma EventMoves(w: World, s: Step)
    requires w.main.Idle? && (s.Readable? || s.Writable?) && Next(w, s).Ok?
    ensures !Next(w, s).w.main.Draining?
  {
    hide OnRead, OnWrite, Release;
  }

  lemma ProceedMoves(w: World)
    requires w.main.Spawning? && Next(w, Proceed).Ok?
    ensures Next(w, Proceed).w.main.Idle?
  {
    hide Release;
  }

  lemma OthersStay(w: World, s: Step)
    requires OfOthers(s) && Next(w, s).Ok?
    ensures Next(w, s).w.main == w.main
  {
    hide AfterRegister, Release;
  }

  /** A handler and, if it created a thread, what it does after that. */
  lemma HandlerExplained(w: World, s: Step, env: Env, m: Moment)
    requires Reachable(w) && w.main.Idle? && (s.Readable? || s.Writable?) && Enabled(w, s) && EnvOk(env)
    ensures Explained(w, Resume(Next(w, s), env, m)) && Resume(Next(w, s), env, m).w.main.Idle?
  {
    hide Reachable, Next, Enabled, Explained, Run, ThreadsOk, EventOk;
    ExplainedStep(w, s);
    ExplainedOk(w, Next(w, s));
    EventMoves(w, s);
    var w1 := Next(w, s).w;
    if w1.main.Spawning? {
      ThreadsExplained(w1, env.threads(m, w1));
      var r2 := Run(w1, env.threads(m, w1));
      ExplainedOk(w1, r2);
      ExplainedChains(w, w1, r2);
      assert Enabled(r2.w, Proceed) by { ProceedEnabled(r2.w); }
      ExplainedStep(r2.w, Proceed);
      ExplainedOk(r2.w, Next(r2.w, Proceed));
      ExplainedChains(w, r2.w, Next(r2.w, Proceed));
      ProceedMoves(r2.w);
    }
  }

  lemma ProceedEnabled(w: World)
    requires w.main.Spawning?
    ensures Enabled(w, Proceed)
  {
  }

  lemma HalfExplained(w: World, fd: int, writing: bool, ready: set<int>, env: Env)
    requires Reachable(w) && w.main.Idle? && EnvOk(env)
    ensures Explained(w, Half(w, fd, writing, ready, env)) && Half(w, fd, writing, ready, env).w.main.Idle?
  {
    hide Reachable, Next, Explained, Run, ThreadsOk, Resume, RetryWorks;
    var m := env.At(fd, if writing then 2 else 1);
    var e := env.event(m, w, fd, writing);
    assert EventOk(w, fd, writing, e);
    ExplainedSelf(w);
    if fd in w.t && fd in ready && (if writing then w.t[fd].interest.write else w.t[fd].interest.read) {
      if w.t[fd].data == 0 {
        hide Enabled;
        ExplainedStep(w, e.other);
        ExplainedOk(w, Next(w, e.other));
        OthersStay(w, e.other);
      } else {
        var s := if writing then Writable(fd, e.io) else Readable(fd, e.io);
        assert Enabled(w, s);
        hide Enabled;
        HandlerExplained(w, s, env, m);
      }
    }
  }

  lemma VisitExplained(w: World, fd: int, slaveR: set<int>, slaveW: set<int>, env: Env)
    requires Reachable(w) && w.main.Idle? && EnvOk(env)
    ensures Explained(w, Visit(w, fd, slaveR, slaveW, env)) && Visit(w, fd, slaveR, slaveW, env).w.main.Idle?
  {
    hide Reachable, Explained, Run, ThreadsOk, EventOk, Half;
    var r0 := Run(w, env.threads(env.At(fd, 0), w));
    ThreadsExplained(w, env.threads(env.At(fd, 0), w));
    ExplainedOk(w, r0);
    var r1 := Half(r0.w, fd, false, slaveR, env);
    HalfExplained(r0.w, fd, false, slaveR, env);
    ExplainedOk(r0.w, r1);
    ExplainedChains(w, r0.w, r1);
    HalfExplained(r1.w, fd, true, slaveW, env);
    ExplainedChains(w, r1.w, Half(r1.w, fd, true, slaveW, env));
  }

  lemma {:induction false} PassExplained(w: World, i: nat, n: nat, slaveR: set<int>, slaveW: set<int>, env: Env)
    requires Reachable(w) && w.main.Idle? && EnvOk(env)
    ensures Explained(w, Pass(w, i, n, slaveR, slaveW, env)) && Pass(w, i, n, slaveR, slaveW, env).w.main.Idle?
    decreases n - i
  {
    hide Reachable, Explained, EnvOk, Visit;
    if i >= n {
      ExplainedSelf(w);
    } else {
      VisitExplained(w, i, slaveR, slaveW, env);
      var r := Visit(w, i, slaveR, slaveW, env);
      ExplainedOk(w, r);
      PassExplained(r.w, i + 1, n, slaveR, slaveW, env);
      ExplainedChains(w, r.w, Pass(r.w, i + 1, n, slaveR, slaveW, env));
    }
  }

  /** The main thread is dispatching, with these jobs left. */
  ghost predicate DrainingWith(w: World, n: nat) {
    w.main.Draining? && |w.main.rest| == n
  }

  lemma DispatchMoves(w: World, io: Io)
    requires Inv(w) && w.main.Draining? && w.main.rest != []
    ensures Next(w, DrainNext(io)).Ok? && Next(w, DrainNext(io)).w.main == Draining(w.main.rest[1..])
  {
    hide ConnInv, Kept, Tallied, ConnsOk, DnsOk, TableOk, ObjectsOk, GatesOk, DeadOk, StatsOk, OnBlock, WorkerOk, Frame;
    HeadJob(w);
    var k := Attached(w.t, w.main.rest[0]);
    OnBlockKeeps(w.conns[k], w.t, w.g, k + 1, io);
    Dispatches(w.conns[k], w.t, w.g, k + 1, OnBlock(w.conns[k], w.t, w.g, k + 1, io));
  }

  lemma DrainNextEnabled(w: World, io: Io)
    requires w.main.Draining? && w.main.rest != []
    ensures Enabled(w, DrainNext(io))
  {
  }

  lemma DispatchExplained(w: World, n: nat, env: Env)
    requires Reachable(w) && DrainingWith(w, n + 1) && EnvOk(env)
    ensures Explained(w, Dispatch(w, n, env)) && DrainingWith(Dispatch(w, n, env).w, n)
  {
    hide Reachable, Explained, Run, ThreadsOk, EventOk, Next, Inv, Enabled;
    var m := env.At(-1, n);
    var r := Run(w, env.threads(m, w));
    ThreadsExplained(w, env.threads(m, w));
    ExplainedOk(w, r);
    var s := DrainNext(env.event(m, r.w, -1, false).io);
    DrainNextEnabled(r.w, s.io);
    ExplainedStep(r.w, s);
    ExplainedChains(w, r.w, Next(r.w, s));
    ReachableInv(r.w);
    DispatchMoves(r.w, s.io);
  }

  lemma {:induction false} DispatchesExplained(w: World, n: nat, env: Env)
    requires Reachable(w) && DrainingWith(w, n) && EnvOk(env)
    ensures Explained(w, DispatchAll(w, n, env)) && DrainingWith(DispatchAll(w, n, env).w, 0)
    decreases n
  {
    hide Reachable, Explained, EnvOk, Dispatch, DrainingWith;
    if n == 0 {
      ExplainedSelf(w);
    } else {
      DispatchExplained(w, n - 1, env);
      var r := Dispatch(w, n - 1, env);
      ExplainedOk(w, r);
      DispatchesExplained(r.w, n - 1, env);
      ExplainedChains(w, r.w, DispatchAll(r.w, n - 1, env));
    }
  }

  lemma DrainSteps(w: World)
    ensures w.main.Idle? ==> Enabled(w, DrainBegin) && Next(w, DrainBegin) == Ok(w.(main := Draining(w.jobs)))
    ensures DrainingWith(w, 0) ==> Enabled(w, DrainEnd)
    ensures Next(w, DrainEnd) == Ok(w.(main := Idle, jobs := []))
  {
  }

  /** Between rounds: nobody's turn, and no job is waiting for the main thread but those queued since. */
  lemma DrainExplained(w: World, env: Env)
    requires Reachable(w) && w.main.Idle? && EnvOk(env)
    ensures Explained(w, Drain(w, env)) && Drain(w, env).w.main.Idle? && Drain(w, env).w.jobs == []
  {
    hide Reachable, Explained, EnvOk, Next, Enabled, DispatchAll;
    DrainSteps(w);
    ExplainedStep(w, DrainBegin);
    var w1 := w.(main := Draining(w.jobs));
    ExplainedOk(w, Ok(w1));
    DispatchesExplained(w1, |w.jobs|, env);
    var r := DispatchAll(w1, |w.jobs|, env);
    ExplainedOk(w1, r);
    ExplainedChains(w, w1, r);
    DrainSteps(r.w);
    ExplainedStep(r.w, DrainEnd);
    ExplainedChains(w, r.w, Next(r.w, DrainEnd));
  }

  /** Every resolution whose thread had notified has been dispatched, once. */
  ghost predicate AllServed(w: World, w': World) {
    forall k :: 0 <= k < |w.workers| && w.workers[k] == Notified ==>
      k < |w'.conns| && w'.conns[k].log.spawns == w'.conns[k].log.dispatches == 1
  }

  lemma DrainedServes(w: World, w': World)
    requires Reachable(w) && Leads(w, w') && Reachable(w') && w'.main.Idle? && w'.jobs == []
    ensures AllServed(w, w') && Later(w, w')
  {
    hide Inv, Run, Possible, Reachable;
    ReachableInv(w);
    ReachableInv(w');
    var steps :| Possible(w, steps) && Run(w, steps) == Ok(w');
    RunIsLater(w, steps);
    forall k | 0 <= k < |w.workers| && w.workers[k] == Notified
      ensures k < |w'.conns| && w'.conns[k].log.spawns == w'.conns[k].log.dispatches == 1
    {
      NotifiedDispatched(w', k);
    }
  }

  /**
   * One round of the loop is a run of the model: whatever pselect reports and whatever the threads and
   * the peers do in between, nothing aborts, and unless pselect fails every job queued before the round
   * is dispatched in it.
   */
  lemma SelectIsRun(w: World, wake: Wake, env: Env)
    requires Reachable(w) && w.main.Idle? && EnvOk(env)
    ensures Explained(w, Select(w, wake, env)) && Select(w, wake, env).w.main.Idle?
    ensures !wake.Failed? ==> AllServed(w, Select(w, wake, env).w)
  {
    hide Reachable, EnvOk, Pass, Drain, AllServed, Leads, Later;
    match wake {
      case Failed => ExplainedSelf(w);
      case Interrupted =>
        DrainExplained(w, env);
        DrainedServes(w, Drain(w, env).w);
      case Woken(slaveR, slaveW, n) =>
        PassExplained(w, 0, n, slaveR, slaveW, env);
        var w1 := Pass(w, 0, n, slaveR, slaveW, env).w;
        DrainExplained(w1, env);
        ExplainedChains(w, w1, Drain(w1, env));
        DrainedServes(w, Drain(w1, env).w);
    }
  }

  lemma LaterOk(env: Env)
    requires EnvOk(env)
    ensures EnvOk(env.Later())
  {
    hide Reachable, ThreadsOk, EventOk;
  }

  /** The server started with any users and any other descriptors goes round for ever without aborting. */
  lemma {:induction false} ServeNeverAborts(w: World, wakes: seq<Wake>, env: Env)
    requires Reachable(w) && w.main.Idle? && EnvOk(env)
    ensures Explained(w, Serve(w, wakes, env)) && Serve(w, wakes, env).w.main.Idle?
    decreases |wakes|
  {
    hide Reachable, Explained, EnvOk, Select;
    if wakes == [] {
      ExplainedSelf(w);
    } else {
      SelectIsRun(w, wakes[0], env);
      var r := Select(w, wakes[0], env);
      ExplainedOk(w, r);
      assert EnvOk(env.Later()) by { LaterOk(env); }
      ServeNeverAborts(r.w, wakes[1..], env.Later());
      ExplainedChains(w, r.w, Serve(r.w, wakes[1..], env.Later()));
    }
  }

  /** The loop begins in a reachable world, and a system that behaves exists. */
  lemma LoopBegins(users: seq<User>, t: Table)
    requires forall fd :: fd in t ==> t[fd].data == 0
    ensures Reachable(Start(users, t)) && Start(users, t).main.Idle?
    ensures exists env :: EnvOk(env)
  {
    assert RunsTo(users, t, [], Start(users, t));
    var still := Event(Io([], -1, NoSocket, OptFails, false), Edit(Accounts.Remove([])));
    var env := Env(0, (m, w) => [], (m, w, fd, writing) => still);
    hide Reachable;
    forall m, w ensures ThreadsOk(w, env.threads(m, w)) {
      assert Possible(w, []);
    }
    forall m, w: World, fd, writing | w.main.Idle? ensures EventOk(w, fd, writing, env.event(m, w, fd, writing)) {
    }
    assert EnvOk(env);
  }

  // ---------------------------------------------------------------- what a round serves

  /** What one descriptor is given in a round: steps of threads, its read handler if due, its write handler if due. */
  datatype Service = Service(before: seq<Step>, atRead: World, read: seq<Step>, atWrite: World, write: seq<Step>)

  /** The descriptor is reported ready, and its interest allows the call now. */
  predicate Due(w: World, fd: int, writing: bool, ready: set<int>) {
    fd in w.t && fd in ready && (if writing then w.t[fd].interest.write else w.t[fd].interest.read)
  }

  /**
   * Its handler was called, once, and nobody else's: one event of that descriptor, followed, if it created
   * a thread, by what the threads did meanwhile and by the rest of the handler.
   */
  ghost predicate Called(w: World, steps: seq<Step>, fd: int, writing: bool, w': World)
    requires fd in w.t
  {
    && steps != [] && Possible(w, steps) && Run(w, steps) == Ok(w')
    && if w.t[fd].data == 0 then |steps| == 1 && OfOthers(steps[0])
       else
         && (steps[0].Readable? || steps[0].Writable?) && steps[0].Writable? == writing && steps[0].fd == fd
         && Next(w, steps[0]).Ok?
         && if Next(w, steps[0]).w.main.Spawning? then
              && |steps| >= 2 && steps[|steps| - 1] == Proceed
              && forall j :: 0 < j < |steps| - 1 ==> OfThread(steps[j])
            else |steps| == 1
  }

  ghost predicate HalfServed(w: World, steps: seq<Step>, fd: int, writing: bool, ready: set<int>, w': World) {
    if Due(w, fd, writing, ready) then Called(w, steps, fd, writing, w') else steps == [] && w' == w
  }

  /** Reading before writing, each exactly if it is due when its turn comes. */
  ghost predicate Served(w: World, v: Service, fd: int, slaveR: set<int>, slaveW: set<int>, w': World) {
    && ThreadsOk(w, v.before) && Run(w, v.before) == Ok(v.atRead)
    && HalfServed(v.atRead, v.read, fd, false, slaveR, v.atWrite)
    && HalfServed(v.atWrite, v.write, fd, true, slaveW, w')
  }

  /** Every descriptor from 0 on is served in ascending order, and nothing else happens. */
  ghost predicate AllServiced(ws: seq<World>, vs: seq<Service>, slaveR: set<int>, slaveW: set<int>) {
    |ws| == |vs| + 1 && forall fd :: 0 <= fd < |vs| ==> Served(ws[fd], vs[fd], fd, slaveR, slaveW, ws[fd + 1])
  }

  /** The steps of a round, one after the other. */
  ghost function Flat(vs: seq<Service>): seq<Step> {
    if vs == [] then [] else vs[0].before + vs[0].read + vs[0].write + Flat(vs[1..])
  }

  lemma HandlerCalls(w: World, s: Step, env: Env, m: Moment) returns (steps: seq<Step>)
    requires Reachable(w) && w.main.Idle? && (s.Readable? || s.Writable?) && Enabled(w, s) && EnvOk(env)
    requires s.fd in w.t && w.t[s.fd].data != 0
    ensures Resume(Next(w, s), env, m).Ok?
    ensures Called(w, steps, s.fd, s.Writable?, Resume(Next(w, s), env, m).w)
  {
    hide Reachable, Next, Enabled, Run, ThreadsOk, EventOk, Possible;
    NeverAborts(w, s);
    var w1 := Next(w, s).w;
    OneStep(w, s);
    if w1.main.Spawning? {
      var threads := env.threads(m, w1);
      ThreadsExplained(w1, threads);
      ExplainedOk(w1, Run(w1, threads));
      ThreadsAre(w1, threads);
      RunsJoin(w, [s], threads);
      var w2 := Run(w1, threads).w;
      assert Enabled(w2, Proceed) by { ProceedEnabled(w2); }
      NeverAborts(w2, Proceed);
      OneStep(w2, Proceed);
      RunsJoin(w, [s] + threads, [Proceed]);
      steps := [s] + threads + [Proceed];
      forall j | 0 < j < |steps| - 1 ensures OfThread(steps[j]) {
        assert steps[j] == threads[j - 1] && threads[j - 1] in threads;
      }
    } else {
      steps := [s];
    }
  }

  lemma OneStep(w: World, s: Step)
    requires Enabled(w, s) && Next(w, s).Ok?
    ensures Possible(w, [s]) && Run(w, [s]) == Next(w, s)
  {
    hide Next, Enabled;
    assert [s][1..] == [];
    assert Run(Next(w, s).w, []) == Ok(Next(w, s).w);
  }

  lemma ThreadsAre(w: World, steps: seq<Step>)
    requires ThreadsOk(w, steps)
    ensures Possible(w, steps) && forall s :: s in steps ==> OfThread(s)
  {
    hide Possible;
  }

  lemma HalfServes(w: World, fd: int, writing: bool, ready: set<int>, env: Env) returns (steps: seq<Step>)
    requires Reachable(w) && w.main.Idle? && EnvOk(env)
    ensures Half(w, fd, writing, ready, env).Ok?
    ensures HalfServed(w, steps, fd, writing, ready, Half(w, fd, writing, ready, env).w)
  {
    hide Reachable, Next, Run, ThreadsOk, Resume, RetryWorks, Possible;
    var m := env.At(fd, if writing then 2 else 1);
    var e := env.event(m, w, fd, writing);
    assert EventOk(w, fd, writing, e);
    steps := [];
    if Due(w, fd, writing, ready) {
      if w.t[fd].data == 0 {
        hide Enabled;
        NeverAborts(w, e.other);
        OneStep(w, e.other);
        steps := [e.other];
      } else {
        var s := if writing then Writable(fd, e.io) else Readable(fd, e.io);
        assert Enabled(w, s);
        hide Enabled;
        steps := HandlerCalls(w, s, env, m);
      }
    }
  }

  /** A visit serves its descriptor. */
  lemma VisitServes(w: World, fd: int, slaveR: set<int>, slaveW: set<int>, env: Env) returns (v: Service)
    requires Reachable(w) && w.main.Idle? && EnvOk(env)
    ensures Visit(w, fd, slaveR, slaveW, env).Ok?
    ensures Served(w, v, fd, slaveR, slaveW, Visit(w, fd, slaveR, slaveW, env).w)
  {
    hide Reachable, Explained, Run, ThreadsOk, EventOk, Half, HalfServed;
    var threads := env.threads(env.At(fd, 0), w);
    var r0 := Run(w, threads);
    ThreadsExplained(w, threads);
    ExplainedOk(w, r0);
    var r1 := Half(r0.w, fd, false, slaveR, env);
    var read := HalfServes(r0.w, fd, false, slaveR, env);
    HalfExplained(r0.w, fd, false, slaveR, env);
    ExplainedOk(r0.w, r1);
    var write := HalfServes(r1.w, fd, true, slaveW, env);
    v := Service(threads, r0.w, read, r1.w, write);
  }

  /** What was served is one run, of just these steps. */
  lemma {:induction false} ServicesAreARun(ws: seq<World>, vs: seq<Service>, from: nat,
                                            slaveR: set<int>, slaveW: set<int>)
    requires from <= |vs| && AllServiced(ws, vs, slaveR, slaveW)
    ensures Possible(ws[from], Flat(vs[from..])) && Run(ws[from], Flat(vs[from..])) == Ok(ws[|vs|])
    decreases |vs| - from
  {
    hide Served, Run, Possible;
    if from == |vs| {
      assert vs[from..] == [];
      NoSteps(ws[from]);
    } else {
      var v := vs[from];
      ServicesAreARun(ws, vs, from + 1, slaveR, slaveW);
      assert vs[from..][0] == v && vs[from..][1..] == vs[from + 1..];
      ServedRuns(ws[from], v, from, slaveR, slaveW, ws[from + 1]);
      RunsJoin(ws[from], v.before + v.read + v.write, Flat(vs[from + 1..]));
    }
  }

  lemma NoSteps(w: World)
    ensures Possible(w, []) && Run(w, []) == Ok(w)
  {
  }

  lemma ServedRuns(w: World, v: Service, fd: int, slaveR: set<int>, slaveW: set<int>, w': World)
    requires Served(w, v, fd, slaveR, slaveW, w')
    ensures Possible(w, v.before + v.read + v.write) && Run(w, v.before + v.read + v.write) == Ok(w')
  {
    hide Run, Possible, HalfServed;
    ThreadsAre(w, v.before);
    HalfRuns(v.atRead, v.read, fd, false, slaveR, v.atWrite);
    HalfRuns(v.atWrite, v.write, fd, true, slaveW, w');
    RunsJoin(w, v.before, v.read);
    RunsJoin(w, v.before + v.read, v.write);
  }

  lemma HalfRuns(w: World, steps: seq<Step>, fd: int, writing: bool, ready: set<int>, w': World)
    requires HalfServed(w, steps, fd, writing, ready, w')
    ensures Possible(w, steps) && Run(w, steps) == Ok(w')
  {
    hide Run, Possible, Next;
    NoSteps(w);
  }

  /** A pass serves every descriptor below `n`. */
  lemma {:induction false} PassServes(w: World, i: nat, n: nat, slaveR: set<int>, slaveW: set<int>, env: Env)
    returns (ws: seq<World>, vs: seq<Service>)
    requires Reachable(w) && w.main.Idle? && EnvOk(env) && i <= n
    ensures |ws| == |vs| + 1 == n - i + 1 && ws[0] == w && Pass(w, i, n, slaveR, slaveW, env) == Ok(ws[n - i])
    ensures forall k :: 0 <= k < |vs| ==> Served(ws[k], vs[k], i + k, slaveR, slaveW, ws[k + 1])
    decreases n - i
  {
    hide Reachable, Explained, EnvOk, Visit, Served;
    if i == n {
      ws, vs := [w], [];
    } else {
      VisitExplained(w, i, slaveR, slaveW, env);
      var v := VisitServes(w, i, slaveR, slaveW, env);
      var r := Visit(w, i, slaveR, slaveW, env);
      ExplainedOk(w, r);
      var ws1, vs1 := PassServes(r.w, i + 1, n, slaveR, slaveW, env);
      ws, vs := [w] + ws1, [v] + vs1;
      forall k | 0 <= k < |vs| ensures Served(ws[k], vs[k], i + k, slaveR, slaveW, ws[k + 1]) {
        if k > 0 {
          assert ws[k] == ws1[k - 1] && vs[k] == vs1[k - 1] && ws[k + 1] == ws1[k];
        }
      }
    }
  }

  /** A round, seen from outside: what is served, and then the jobs. */
  ghost predicate RoundIs(w: World, wake: Wake, w': World) {
    match wake
    case Failed => w' == w
    case Interrupted => Drained(w, w')
    case Woken(slaveR, slaveW, n) =>
      exists ws, vs :: |vs| == n && AllServiced(ws, vs, slaveR, slaveW) && ws[0] == w && Drained(ws[n], w')
  }

  /** Only threads and the jobs that were queued: every one of them is dispatched, and the list is empty. */
  ghost predicate Drained(w: World, w': World) {
    && w'.main.Idle? && w'.jobs == [] && AllServed(w, w')
    && exists steps :: Possible(w, steps) && Run(w, steps) == Ok(w') && JobsOnly(steps)
                       && |DispatchesIn(steps)| == |w.jobs|
  }

  predicate JobsOnly(steps: seq<Step>) {
    forall s :: s in steps ==> OfThread(s) || s.DrainBegin? || s.DrainNext? || s.DrainEnd?
  }

  function DispatchesIn(steps: seq<Step>): seq<Step> {
    if steps == [] then [] else (if steps[0].DrainNext? then [steps[0]] else []) + DispatchesIn(steps[1..])
  }

  lemma {:induction false} DispatchesJoin(a: seq<Step>, b: seq<Step>)
    ensures DispatchesIn(a + b) == DispatchesIn(a) + DispatchesIn(b)
  {
    if a == [] {
      assert a + b == b;
    } else {
      assert (a + b)[0] == a[0] && (a + b)[1..] == a[1..] + b;
      DispatchesJoin(a[1..], b);
    }
  }

  lemma {:induction false} NoDispatches(steps: seq<Step>)
    requires forall s :: s in steps ==> OfThread(s)
    ensures DispatchesIn(steps) == [] && JobsOnly(steps)
  {
    if steps != [] {
      assert steps[0] in steps;
      assert forall s :: s in steps[1..] ==> s in steps;
      NoDispatches(steps[1..]);
    }
  }

  lemma DispatchDoes(w: World, n: nat, env: Env) returns (steps: seq<Step>)
    requires Reachable(w) && DrainingWith(w, n + 1) && EnvOk(env)
    ensures Dispatch(w, n, env).Ok? && Possible(w, steps) && Run(w, steps) == Ok(Dispatch(w, n, env).w)
    ensures JobsOnly(steps) && |DispatchesIn(steps)| == 1
  {
    hide Reachable, Run, Possible, ThreadsOk, EventOk, Next, Inv, Enabled, Explained;
    var m := env.At(-1, n);
    var threads := env.threads(m, w);
    ThreadsExplained(w, threads);
    ExplainedOk(w, Run(w, threads));
    ThreadsAre(w, threads);
    NoDispatches(threads);
    var w1 := Run(w, threads).w;
    var s := DrainNext(env.event(m, w1, -1, false).io);
    DrainNextEnabled(w1, s.io);
    NeverAborts(w1, s);
    OneStep(w1, s);
    RunsJoin(w, threads, [s]);
    DispatchesJoin(threads, [s]);
    assert DispatchesIn([s]) == [s] by { assert [s][1..] == []; }
    steps := threads + [s];
  }

  lemma {:induction false} DispatchesDo(w: World, n: nat, env: Env) returns (steps: seq<Step>)
    requires Reachable(w) && DrainingWith(w, n) && EnvOk(env)
    ensures DispatchAll(w, n, env).Ok? && Possible(w, steps) && Run(w, steps) == Ok(DispatchAll(w, n, env).w)
    ensures JobsOnly(steps) && |DispatchesIn(steps)| == n
    decreases n
  {
    hide Reachable, EnvOk, Dispatch, DrainingWith, Run, Possible, Explained;
    if n == 0 {
      NoSteps(w);
      steps := [];
    } else {
      DispatchExplained(w, n - 1, env);
      var r := Dispatch(w, n - 1, env);
      ExplainedOk(w, r);
      var one := DispatchDoes(w, n - 1, env);
      var rest := DispatchesDo(r.w, n - 1, env);
      RunsJoin(w, one, rest);
      DispatchesJoin(one, rest);
      steps := one + rest;
    }
  }

  lemma DrainDoes(w: World, env: Env)
    requires Reachable(w) && w.main.Idle? && EnvOk(env)
    ensures Drain(w, env).Ok? && Drained(w, Drain(w, env).w)
  {
    hide Reachable, Explained, EnvOk, Next, Enabled, DispatchAll, Run, Possible, AllServed, Leads, Later;
    DrainExplained(w, env);
    ExplainedHas(w, Drain(w, env));
    ExplainedOk(w, Drain(w, env));
    DrainedServes(w, Drain(w, env).w);
    DrainSteps(w);
    ExplainedStep(w, DrainBegin);
    var w1 := w.(main := Draining(w.jobs));
    ExplainedOk(w, Ok(w1));
    OneStep(w, DrainBegin);
    DispatchesExplained(w1, |w.jobs|, env);
    var steps := DispatchesDo(w1, |w.jobs|, env);
    var w2 := DispatchAll(w1, |w.jobs|, env).w;
    DrainSteps(w2);
    OneStep(w2, DrainEnd);
    RunsJoin(w, [DrainBegin], steps);
    RunsJoin(w, [DrainBegin] + steps, [DrainEnd]);
    DispatchesJoin([DrainBegin], steps);
    DispatchesJoin([DrainBegin] + steps, [DrainEnd]);
    assert DispatchesIn([DrainBegin]) == [] by { assert [DrainBegin][1..] == []; }
    assert DispatchesIn([DrainEnd]) == [] by { assert [DrainEnd][1..] == []; }
    var all := [DrainBegin] + steps + [DrainEnd];
    assert JobsOnly(all) && |DispatchesIn(all)| == |w.jobs|;
  }

  lemma ExplainedHas(w: World, r: Result)
    requires Explained(w, r)
    ensures Leads(w, r.w) && Reachable(r.w)
  {
  }

  /** One round is what it should be. */
  lemma SelectServes(w: World, wake: Wake, env: Env)
    requires Reachable(w) && w.main.Idle? && EnvOk(env)
    ensures Select(w, wake, env).Ok? && RoundIs(w, wake, Select(w, wake, env).w)
  {
    hide Reachable, EnvOk, Pass, Drain, Drained, Explained;
    match wake {
      case Failed =>
      case Interrupted => DrainDoes(w, env);
      case Woken(slaveR, slaveW, n) =>
        PassExplained(w, 0, n, slaveR, slaveW, env);
        var ws, vs := PassServes(w, 0, n, slaveR, slaveW, env);
        ExplainedOk(w, Pass(w, 0, n, slaveR, slaveW, env));
        assert AllServiced(ws, vs, slaveR, slaveW) by { hide Served; }
        DrainDoes(ws[n], env);
    }
  }

  /** Rounds, each as its wake-up says. */
  ghost predicate RoundsAre(ws: seq<World>, wakes: seq<Wake>) {
    |ws| == |wakes| + 1 && forall i :: 0 <= i < |wakes| ==> RoundIs(ws[i], wakes[i], ws[i + 1])
  }

  /** The loop of the server serves every round. */
  lemma {:induction false} ServeServes(w: World, wakes: seq<Wake>, env: Env) returns (ws: seq<World>)
    requires Reachable(w) && w.main.Idle? && EnvOk(env)
    ensures RoundsAre(ws, wakes) && ws[0] == w && Serve(w, wakes, env) == Ok(ws[|wakes|])
    decreases |wakes|
  {
    hide Reachable, Explained, EnvOk, Select, RoundIs;
    if wakes == [] {
      ws := [w];
    } else {
      SelectIsRun(w, wakes[0], env);
      SelectServes(w, wakes[0], env);
      var r := Select(w, wakes[0], env);
      ExplainedOk(w, r);
      assert EnvOk(env.Later()) by { LaterOk(env); }
      var rest := ServeServes(r.w, wakes[1..], env.Later());
      ws := [w] + rest;
      forall i | 0 <= i < |wakes| ensures RoundIs(ws[i], wakes[i], ws[i + 1]) {
        if i > 0 {
          assert ws[i] == rest[i - 1] && wakes[i] == wakes[1..][i - 1] && ws[i + 1] == rest[i];
        }
      }
    }
  }

  // ---------------------------------------------------------------- the loops

  method HandleIteration(w0: World, n: nat, slaveR: set<int>, slaveW: set<int>, env: Env)
    returns (w: World, ghost ws: seq<World>, ghost vs: seq<Service>)
    requires Reachable(w0) && w0.main.Idle? && EnvOk(env)
    ensures Explained(w0, Ok(w)) && w.main.Idle?
    ensures |vs| == n && AllServiced(ws, vs, slaveR, slaveW) && ws[0] == w0 && ws[n] == w
  {
    hide Reachable, Explained, EnvOk, Visit, Served;
    w, ws, vs := w0, [w0], [];
    ExplainedSelf(w0);
    for i := 0 to n
      invariant Reachable(w) && w.main.Idle? && Explained(w0, Ok(w))
      invariant |vs| == i && AllServiced(ws, vs, slaveR, slaveW) && ws[0] == w0 && ws[i] == w
    {
      VisitExplained(w, i, slaveR, slaveW, env);
      ghost var v := VisitServes(w, i, slaveR, slaveW, env);
      var r := Visit(w, i, slaveR, slaveW, env);
      ExplainedOk(w, r);
      ExplainedChains(w0, w, r);
      ghost var ws1, vs1 := ws + [r.w], vs + [v];
      forall fd | 0 <= fd < |vs1| ensures Served(ws1[fd], vs1[fd], fd, slaveR, slaveW, ws1[fd + 1]) {
        if fd < i {
          assert ws1[fd] == ws[fd] && vs1[fd] == vs[fd] && ws1[fd + 1] == ws[fd + 1];
        }
      }
      w, ws, vs := r.w, ws1, vs1;
    }
  }

  method HandleBlockNotifications(w0: World, env: Env) returns (w: World)
    requires Reachable(w0) && w0.main.Idle? && EnvOk(env)
    ensures Ok(w) == Drain(w0, env) && Explained(w0, Ok(w)) && Drained(w0, w)
  {
    hide Reachable, Explained, EnvOk, Next, Dispatch, Enabled, Drained;
    DrainExplained(w0, env);
    DrainSteps(w0);
    ExplainedStep(w0, DrainBegin);
    w := w0.(main := Draining(w0.jobs));
    ExplainedOk(w0, Ok(w));
    for n := |w0.jobs| downto 0
      invariant Reachable(w) && DrainingWith(w, n)
      invariant DispatchAll(w0.(main := Draining(w0.jobs)), |w0.jobs|, env) == DispatchAll(w, n, env)
    {
      DispatchExplained(w, n, env);
      var r := Dispatch(w, n, env);
      ExplainedOk(w, r);
      w := r.w;
    }
    DrainSteps(w);
    w := w.(main := Idle, jobs := []);
    DrainDoes(w0, env);
  }
}
