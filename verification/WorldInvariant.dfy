/** What holds of the whole proxy between two steps of any run. */
module WorldInvariant {
  import opened Bytes
  import opened Selector
  import opened Session
  import opened SessionInvariant
  import opened SessionEngine
  import opened World

  ghost predicate ConnsOk(conns: seq<Conn>, t: Table, authOn: bool) {
    forall k :: 0 <= k < |conns| && conns[k].live ==> ConnInv(conns[k], t, k + 1, authOn)
  }

  /** Every descriptor belongs to a live connection or to somebody else. */
  ghost predicate TableOk(conns: seq<Conn>, t: Table) {
    forall fd :: fd in t ==> t[fd].data == 0 || (t[fd].data <= |conns| && conns[t[fd].data - 1].live)
  }

  /** No object serves two live connections, none is both live and pooled, none is pooled twice. */
  ghost predicate ObjectsOk(conns: seq<Conn>, pool: seq<nat>, poolSize: nat) {
    && (forall j, k :: 0 <= j < k < |conns| && conns[j].live && conns[k].live ==> conns[j].obj != conns[k].obj)
    && (forall k :: 0 <= k < |conns| && conns[k].live ==> conns[k].obj !in pool)
    && NoRepeats(pool)
    && |pool| <= poolSize <= MAX_POOL
  }

  ghost predicate NoRepeats<T(!new)>(s: seq<T>) {
    forall i, j :: 0 <= i < j < |s| ==> s[i] != s[j]
  }

  /** Authentication is off for good once anybody was let through without it. */
  ghost predicate GatesOk(conns: seq<Conn>, authOn: bool) {
    forall k :: 0 <= k < |conns| && conns[k].log.gate == AuthOff ==> !authOn
  }

  /** Of a released connection the streams remain, with both directions of a relay closed. */
  ghost predicate DeadOk(conns: seq<Conn>) {
    forall k :: 0 <= k < |conns| && !conns[k].live ==> Conserved(conns[k]) && Ended(conns[k])
  }

  ghost function Sum(conns: seq<Conn>, f: Conn -> int): int {
    if conns == [] then 0 else f(conns[0]) + Sum(conns[1..], f)
  }

  function CopiedBit(c: Conn): int {
    Bit(c.log.copied)
  }

  function CopyBit(c: Conn): int {
    Bit(InCopy(c))
  }

  ghost predicate StatsOk(conns: seq<Conn>, g: Globals) {
    && g.historic == Sum(conns, CopiedBit) % U32
    && g.current == Sum(conns, CopyBit) % U32
    && g.transferred == Sum(conns, Delivered) % U32
  }

  /** A resolution in flight has its thread; its job is queued exactly when the thread has notified. */
  ghost predicate WorkerOk(c: Conn, wk: Worker, pending: seq<int>, spawning: bool) {
    if c.live && InFlight(c) then
      wk != NoWorker && (wk == Notified <==> c.clientFd in pending) && c.spawned == spawning
    else
      && !spawning && c.log.spawns == c.log.dispatches <= 1
      && wk == if c.log.spawns == 0 then NoWorker else Notified
  }

  /** Every queued job is that of a resolution in flight. */
  ghost predicate QueueOk(conns: seq<Conn>, t: Table, pending: seq<int>) {
    && NoRepeats(pending)
    && forall fd :: fd in pending ==>
         var k := Attached(t, fd);
         0 <= k < |conns| && conns[k].live && InFlight(conns[k]) && conns[k].clientFd == fd
  }

  ghost predicate DnsOk(conns: seq<Conn>, workers: seq<Worker>, t: Table, pending: seq<int>, main: Main) {
    && |workers| == |conns|
    && (main.Spawning? ==> main.k < |conns|)
    && (forall k :: 0 <= k < |conns| ==> WorkerOk(conns[k], workers[k], pending, main == Spawning(k)))
    && QueueOk(conns, t, pending)
  }

  /** While the list is drained nobody adds to it: what is left to dispatch is its tail. */
  ghost predicate DrainOk(main: Main, jobs: seq<int>) {
    main.Draining? ==> |main.rest| <= |jobs| && main.rest == jobs[|jobs| - |main.rest|..]
  }

  ghost predicate Inv(w: World) {
    && ConnsOk(w.conns, w.t, w.g.authOn) && TableOk(w.conns, w.t)
    && ObjectsOk(w.conns, w.pool, w.poolSize)
    && GatesOk(w.conns, w.g.authOn) && DeadOk(w.conns)
    && StatsOk(w.conns, w.g)
    && DnsOk(w.conns, w.workers, w.t, Pending(w.main, w.jobs), w.main) && DrainOk(w.main, w.jobs)
  }
}
