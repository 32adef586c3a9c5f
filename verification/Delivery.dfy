/**
 * What a relay delivers in the end. A direction that closes, for whatever reason, keeps what is buffered
 * in it for ever: what was received is delivered in full exactly if nothing was buffered at that moment.
 */
module Delivery {
  import opened Bytes
  import opened Buffers
  import opened Selector
  import opened Session
  import opened SessionInvariant
  import opened SessionProofs
  import opened SessionEngine
  import opened World
  import opened WorldInvariant
  import opened WorldProofs
  import opened Guarantees

  // ---------------------------------------------------------------- directions

  /** From the client to the origin, or back. */
  datatype Way = Up | Down

  /** The source of the direction is not read any more; its sink is not written any more either. */
  predicate Closed(c: Conn, way: Way) {
    && c.log.copied && c.client.ClientCopy?
    && (if way.Up? then !c.client.cDuplex.read else !c.client.cDuplex.write)
  }

  predicate IsOpen(c: Conn, way: Way) {
    && c.live && c.phase == Copy && c.client.ClientCopy?
    && (if way.Up? then c.client.cDuplex.read else c.client.cDuplex.write)
  }

  /** What came in and what went out on that way, and what is between. */
  predicate SameWay(c: Conn, d: Conn, way: Way) {
    if way.Up? then
      && d.log.fromClient == c.log.fromClient && d.log.toOrigin == c.log.toOrigin && d.rb == c.rb
      && d.log.hello == c.log.hello && d.log.auth == c.log.auth && d.log.request == c.log.request
    else
      && d.log.fromOrigin == c.log.fromOrigin && d.log.toClient == c.log.toClient && d.wb == c.wb
      && d.log.replies == c.log.replies
  }

  function Buffered(c: Conn, way: Way): seq<byte> {
    if way.Up? then c.rb.bytes else c.wb.bytes
  }

  /** Everything received on that way, behind the handshake, has reached the other end. */
  ghost predicate AllDelivered(c: Conn, way: Way) {
    if way.Up? then
      var n := |c.log.hello + c.log.auth + c.log.request|;
      n <= |c.log.fromClient| && c.log.toOrigin == c.log.fromClient[n..]
    else c.log.toClient == c.log.replies + c.log.fromOrigin
  }

  /** The event that closes it: nothing comes from the source, or the sink takes nothing. */
  predicate Closing(c: Conn, s: Step, way: Way) {
    if way.Up? then
      (s.Readable? && s.fd == c.clientFd && Received(c.rb, s.io.recv) == [])
      || (s.Writable? && s.fd == c.originFd && Sent(c.rb, s.io.send) < 0)
    else
      (s.Readable? && s.fd == c.originFd && Received(c.wb, s.io.recv) == [])
      || (s.Writable? && s.fd == c.clientFd && Sent(c.wb, s.io.send) < 0)
  }

  // ---------------------------------------------------------------- one event

  /** What the engine does to a relay after its handler: nothing that matters here. */
  predicate SameRelayState(c: Conn, d: Conn) {
    d.client == c.client && d.origin == c.origin && d.rb == c.rb && d.wb == c.wb && d.log == c.log
  }

  lemma EngineKeepsRelay(h: Out)
    requires h.Out? && h.c.phase == Copy && (h.ret == Copy || h.ret == Done) && Settle(Jump(h)).Out?
    ensures SameRelayState(h.c, Settle(Jump(h)).c)
  {
  }

  /** copy_r leaves what `CopyReadClient` or `CopyReadOrigin` says. */
  lemma ReadLeaves(c: Conn, t: Table, g: Globals, id: nat, fd: int, io: Io)
    requires ConnInv(c, t, id, g.authOn) && c.phase == Copy && (fd == c.clientFd || fd == c.originFd)
    requires OnRead(c, t, g, id, fd, io).Out?
    ensures c.client.ClientCopy? && c.origin.OriginCopy?
    ensures SameRelayState(if fd == c.clientFd then CopyReadClient(c, Received(c.rb, io.recv))
                           else CopyReadOrigin(c, Received(c.wb, io.recv)), OnRead(c, t, g, id, fd, io).c)
  {
    hide ConnInv, Jumped, Jump, Settle, Received, AfterSetInterest;
    CopyState(c, t, id, g.authOn);
    CopyReadKeeps(c, t, g, id, fd, io);
    var h := CopyReadH(c, t, g, fd, io);
    HandlerOut(h);
    ReadHandlerIs(c, t, g, fd, io);
    hide CopyReadH;
    EngineKeepsRelay(h);
  }

  lemma ReadHandlerIs(c: Conn, t: Table, g: Globals, fd: int, io: Io)
    requires c.client.ClientCopy? && c.origin.OriginCopy?
    ensures var h := CopyReadH(c, t, g, fd, io);
            h.Out? ==>
              && h.c == (if fd == c.clientFd then CopyReadClient(c, Received(c.rb, io.recv))
                         else CopyReadOrigin(c, Received(c.wb, io.recv)))
              && h.c.phase == c.phase && (h.ret == Copy || h.ret == Done)
  {
    hide Received, AfterSetInterest;
  }

  lemma WriteHandlerIs(c: Conn, t: Table, g: Globals, fd: int, io: Io)
    requires c.client.ClientCopy? && c.origin.OriginCopy?
    ensures var h := CopyWriteH(c, t, g, fd, io);
            h.Out? ==>
              && h.c == (if fd == c.clientFd then CopyWriteClient(c, Sent(c.wb, io.send))
                         else CopyWriteOrigin(c, Sent(c.rb, io.send)))
              && h.c.phase == c.phase && (h.ret == Copy || h.ret == Done)
  {
    hide Sent, AfterSetInterest, Counted;
  }

  lemma HandlerOut(h: Out)
    ensures Jump(h).Out? ==> h.Out? && Jump(h).ret == h.ret
  {
  }

  lemma CopyState(c: Conn, t: Table, id: nat, authOn: bool)
    requires ConnInv(c, t, id, authOn) && c.phase == Copy
    ensures Copying(c, InterestOf(c.clientFd, t), InterestOf(c.originFd, t)) && c.clientFd != c.originFd
    ensures c.client.ClientCopy? && c.origin.OriginCopy? && c.log.copied && c.live
  {
    OwnedDistinct(c.clientFd, c.originFd, c.references, t, id);
    hide Common, Aimed, Admitted, Owned;
  }

  lemma WriteLeaves(c: Conn, t: Table, g: Globals, id: nat, fd: int, io: Io)
    requires ConnInv(c, t, id, g.authOn) && c.phase == Copy && (fd == c.clientFd || fd == c.originFd)
    requires OnWrite(c, t, g, id, fd, io).Out?
    ensures c.client.ClientCopy? && c.origin.OriginCopy?
    ensures SameRelayState(if fd == c.clientFd then CopyWriteClient(c, Sent(c.wb, io.send))
                           else CopyWriteOrigin(c, Sent(c.rb, io.send)), OnWrite(c, t, g, id, fd, io).c)
  {
    hide ConnInv, Jumped, Jump, Settle, Sent, AfterSetInterest, Counted;
    CopyState(c, t, id, g.authOn);
    CopyWriteKeeps(c, t, g, id, fd, io);
    var h := CopyWriteH(c, t, g, fd, io);
    HandlerOut(h);
    WriteHandlerIs(c, t, g, fd, io);
    hide CopyWriteH;
    EngineKeepsRelay(h);
  }

  /** What an event does to either way: a closed one stays as it is, an open one closes exactly by its closing event. */
  ghost predicate Treats(c: Conn, d: Conn, s: Step) {
    TreatsWay(c, d, s, Up) && TreatsWay(c, d, s, Down)
  }

  ghost predicate TreatsWay(c: Conn, d: Conn, s: Step, way: Way) {
    && (Closed(c, way) ==> Closed(d, way) && SameWay(c, d, way))
    && (IsOpen(c, way) ==>
          && (Closed(d, way) <==> Closing(c, s, way))
          && (Closing(c, s, way) ==> SameWay(c, d, way)))
  }

  /** The interest of a relay in the event that has just happened. */
  lemma FiredWanted(c: Conn, t: Table, id: nat, authOn: bool, fd: int)
    requires ConnInv(c, t, id, authOn) && c.phase == Copy && fd in t && t[fd].data == id
    ensures (fd == c.clientFd || fd == c.originFd) && c.log.copied
    ensures c.client.ClientCopy? && c.origin.OriginCopy? && c.clientFd != c.originFd
    ensures c.client.cDuplex.read == c.origin.oDuplex.write && c.client.cDuplex.write == c.origin.oDuplex.read
    ensures t[fd].interest.read ==> if fd == c.clientFd then c.client.cDuplex.read else c.origin.oDuplex.read
    ensures t[fd].interest.write ==> if fd == c.clientFd then c.client.cDuplex.write else c.origin.oDuplex.write
  {
    CopyState(c, t, id, authOn);
    assert fd == c.clientFd || fd == c.originFd;
    assert InterestOf(fd, t) == t[fd].interest;
    hide ConnInv, Aimed, Admitted, Prelude;
  }

  lemma ReadTreats(c: Conn, t: Table, g: Globals, id: nat, fd: int, io: Io)
    requires ConnInv(c, t, id, g.authOn) && c.phase == Copy && fd in t && t[fd].data == id && t[fd].interest.read
    requires OnRead(c, t, g, id, fd, io).Out?
    ensures Treats(c, OnRead(c, t, g, id, fd, io).c, Readable(fd, io))
  {
    hide ConnInv, OnRead, Received;
    FiredWanted(c, t, id, g.authOn, fd);
    ReadLeaves(c, t, g, id, fd, io);
  }

  lemma WriteTreats(c: Conn, t: Table, g: Globals, id: nat, fd: int, io: Io)
    requires ConnInv(c, t, id, g.authOn) && c.phase == Copy && fd in t && t[fd].data == id && t[fd].interest.write
    requires OnWrite(c, t, g, id, fd, io).Out?
    ensures Treats(c, OnWrite(c, t, g, id, fd, io).c, Writable(fd, io))
  {
    hide ConnInv, OnWrite, Sent;
    FiredWanted(c, t, id, g.authOn, fd);
    WriteLeaves(c, t, g, id, fd, io);
  }

  // ---------------------------------------------------------------- every step

  lemma CopiedIsCopy(c: Conn, t: Table, id: nat, authOn: bool)
    requires ConnInv(c, t, id, authOn) && c.log.copied
    ensures c.phase == Copy && !InFlight(c)
  {
  }

  lemma OtherRelays(w: World, s: Step, k: nat)
    requires Inv(w) && Enabled(w, s) && !RunsHandler(s) && Next(w, s).Ok?
    requires k < |w.conns| && w.conns[k].live && w.conns[k].log.copied
    ensures k < |Next(w, s).w.conns| && Next(w, s).w.conns[k] == w.conns[k]
  {
    hide Inv, Enabled, OnRead, OnWrite, OnBlock, FinishSpawn, AfterRegister, Release, Answered;
    if s.Lookup? || s.Notify? {
      hide Next;
      ThreadRelays(w, s, k);
    }
  }

  lemma ThreadRelays(w: World, s: Step, k: nat)
    requires Inv(w) && Enabled(w, s) && (s.Lookup? || s.Notify?) && Next(w, s).Ok?
    requires k < |w.conns| && w.conns[k].live && w.conns[k].log.copied
    ensures k < |Next(w, s).w.conns| && Next(w, s).w.conns[k] == w.conns[k]
  {
    hide Inv, ConnInv, Answered, InFlight;
    LiveConn(w, k);
    CopiedIsCopy(w.conns[k], w.t, k + 1, w.g.authOn);
    WorkerInFlight(w, s.k);
  }

  /** What the other connections, and the one of the event, are afterwards. */
  lemma ElsewhereRelays(w: World, k: nat, j: nat, o: Out, main: Main)
    requires k < |w.conns| == |w.workers| && j < |w.conns| && o.Out?
    ensures |Put(w, j, o, main).conns| == |w.conns|
    ensures Put(w, j, o, main).conns[k] == if j == k then o.c else w.conns[k]
  {
    hide Release;
  }

  predicate Quiet(c: Conn, s: Step) {
    !Closing(c, s, Up) && !Closing(c, s, Down)
  }

  lemma SelfTreats(c: Conn, s: Step)
    requires Quiet(c, s)
    ensures Treats(c, c, s)
  {
    hide Closing;
  }

  /** The event of a step belongs to a connection that is not this one, or that does not relay. */
  lemma NotHere(w: World, s: Step, k: nat)
    requires Inv(w) && k < |w.conns| && w.conns[k].live && w.conns[k].log.copied
    requires (s.Readable? || s.Writable?) ==> Attached(w.t, s.fd) != k
    ensures Quiet(w.conns[k], s)
  {
    hide Inv, ConnInv, Received, Sent;
    LiveConn(w, k);
    CopiedIsCopy(w.conns[k], w.t, k + 1, w.g.authOn);
    OwnedHere(w.conns[k], w.t, k + 1, w.g.authOn);
  }

  lemma OwnedHere(c: Conn, t: Table, id: nat, authOn: bool)
    requires ConnInv(c, t, id, authOn) && c.phase == Copy
    ensures c.clientFd in t && t[c.clientFd].data == id && c.originFd in t && t[c.originFd].data == id
  {
    hide Common, Aimed, Admitted;
  }

  /** No step changes a way that is closed, and a way closes exactly by its closing event. */
  lemma StepTreats(w: World, s: Step, k: nat)
    requires Inv(w) && Enabled(w, s) && Next(w, s).Ok? && k < |w.conns| && w.conns[k].live && w.conns[k].log.copied
    ensures k < |Next(w, s).w.conns| && Treats(w.conns[k], Next(w, s).w.conns[k], s)
  {
    var c := w.conns[k];
    hide Inv, Next, Enabled, Treats, Quiet;
    if (s.Readable? || s.Writable?) && Attached(w.t, s.fd) == k {
      HereTreats(w, s, k);
    } else {
      NotHere(w, s, k);
      SelfTreats(c, s);
      StepElsewhere(w, s, k);
    }
  }

  lemma HereTreats(w: World, s: Step, k: nat)
    requires Inv(w) && Enabled(w, s) && Next(w, s).Ok? && k < |w.conns| && w.conns[k].live && w.conns[k].log.copied
    requires (s.Readable? || s.Writable?) && Attached(w.t, s.fd) == k
    ensures k < |Next(w, s).w.conns| && Treats(w.conns[k], Next(w, s).w.conns[k], s)
  {
    hide Inv, Next, Enabled, OnRead, OnWrite, Treats, ConnInv, Put, RetryWorks;
    LiveConn(w, k);
    CopiedIsCopy(w.conns[k], w.t, k + 1, w.g.authOn);
    if s.Readable? {
      ReadableRuns(w, s.fd, s.io);
      ReadTreats(w.conns[k], w.t, w.g, k + 1, s.fd, s.io);
      ElsewhereRelays(w, k, k, ReadOf(w, s.fd, s.io), Idle);
    } else {
      WritableRuns(w, s.fd, s.io);
      WriteTreats(w.conns[k], w.t, w.g, k + 1, s.fd, s.io);
      ElsewhereRelays(w, k, k, WriteOf(w, s.fd, s.io), Idle);
    }
  }

  lemma LiveConn(w: World, k: nat)
    requires Inv(w) && k < |w.conns| && w.conns[k].live
    ensures ConnInv(w.conns[k], w.t, k + 1, w.g.authOn)
  {
    hide ConnInv;
  }

  lemma StepElsewhere(w: World, s: Step, k: nat)
    requires Inv(w) && Enabled(w, s) && Next(w, s).Ok? && k < |w.conns| && w.conns[k].live && w.conns[k].log.copied
    requires (s.Readable? || s.Writable?) ==> Attached(w.t, s.fd) != k
    ensures k < |Next(w, s).w.conns| && Next(w, s).w.conns[k] == w.conns[k]
  {
    hide Inv, IsEvent, Next, Enabled;
    if RunsHandler(s) {
      var j, o, main := EventOf(w, s);
      EventPlace(w, s, j, o, main);
      EventNotHere(w, s, k);
      ElsewhereRelays(w, k, j, o, main);
    } else {
      OtherRelays(w, s, k);
    }
  }

  /** A connection that relays is not the one whose thread or job the main thread attends to. */
  lemma EventNotHere(w: World, s: Step, k: nat)
    requires Inv(w) && Enabled(w, s) && RunsHandler(s) && k < |w.conns| && w.conns[k].live && w.conns[k].log.copied
    requires (s.Readable? || s.Writable?) ==> Attached(w.t, s.fd) != k
    ensures Attending(w, s) != k
  {
    hide Inv, ConnInv, InFlight, Enabled;
    LiveConn(w, k);
    CopiedIsCopy(w.conns[k], w.t, k + 1, w.g.authOn);
    if s.Proceed? {
      SpawningFlies(w, s);
    } else if s.DrainNext? {
      QueuedFlies(w, s);
    }
  }

  lemma SpawningFlies(w: World, s: Step)
    requires Inv(w) && s.Proceed? && Enabled(w, s)
    ensures IsLive(w, Attending(w, s)) && InFlight(w.conns[Attending(w, s)])
  {
    hide Inv, ConnInv;
    SpawningIsLive(w);
  }

  lemma QueuedFlies(w: World, s: Step)
    requires Inv(w) && s.DrainNext? && Enabled(w, s)
    ensures IsLive(w, Attending(w, s)) && InFlight(w.conns[Attending(w, s)])
  {
    hide Inv, ConnInv;
    HeadJob(w);
  }

  lemma EventPlace(w: World, s: Step, j: nat, o: Out, main: Main)
    requires IsEvent(w, s, j, o, main)
    ensures j < |w.conns| == |w.workers| && o.Out? && Next(w, s) == Ok(Put(w, j, o, main)) && j == Attending(w, s)
  {
    hide Next, Put, Attending;
  }

  // ---------------------------------------------------------------- over whole runs

  /** Once closed, closed for ever, with what went in, what came out and what is between. */
  lemma {:induction false} ClosedForever(w: World, steps: seq<Step>, k: nat, way: Way)
    requires Inv(w) && Possible(w, steps) && k < |w.conns| && Closed(w.conns[k], way)
    ensures var r := Run(w, steps);
            r.Ok? && k < |r.w.conns| && Closed(r.w.conns[k], way) && SameWay(w.conns[k], r.w.conns[k], way)
    decreases |steps|
  {
    hide Inv, Next, Enabled, Closed, SameWay;
    if steps == [] {
      assert SameWay(w.conns[k], w.conns[k], way) by { SameSelf(w.conns[k], way); }
    } else {
      StepKeeps(w, steps[0]);
      var w1 := Next(w, steps[0]).w;
      ClosedStays(w, steps[0], k, way);
      ClosedForever(w1, steps[1..], k, way);
      SameChains(w.conns[k], w1.conns[k], Run(w1, steps[1..]).w.conns[k], way);
    }
  }

  lemma SameSelf(c: Conn, way: Way)
    ensures SameWay(c, c, way)
  {
  }

  lemma SameChains(a: Conn, b: Conn, c: Conn, way: Way)
    requires SameWay(a, b, way) && SameWay(b, c, way)
    ensures SameWay(a, c, way)
  {
  }

  lemma ClosedStays(w: World, s: Step, k: nat, way: Way)
    requires Inv(w) && Enabled(w, s) && Next(w, s).Ok? && k < |w.conns| && Closed(w.conns[k], way)
    ensures var w' := Next(w, s).w;
            k < |w'.conns| && Closed(w'.conns[k], way) && SameWay(w.conns[k], w'.conns[k], way)
  {
    hide Inv, Next, Enabled, SameWay, IsOpen, Closing;
    if w.conns[k].live {
      StepTreats(w, s, k);
    } else {
      StepIsLater(w, s);
      SameSelf(w.conns[k], way);
    }
  }

  /** An open way closes exactly when nothing comes from its source or its sink takes nothing. */
  lemma ClosesIff(w: World, s: Step, k: nat, way: Way)
    requires Reachable(w) && Enabled(w, s) && Next(w, s).Ok? && k < |w.conns| && IsOpen(w.conns[k], way)
    ensures var w' := Next(w, s).w;
            && k < |w'.conns|
            && (Closed(w'.conns[k], way) <==> Closing(w.conns[k], s, way))
            && (Closing(w.conns[k], s, way) ==> SameWay(w.conns[k], w'.conns[k], way))
  {
    hide Inv, Reachable, Next, Enabled, SameWay, Closing, Closed;
    ReachableInv(w);
    ReachableConserved(w, k);
    StepTreats(w, s, k);
  }

  lemma DeliveredIfEmpty(w: World, k: nat, way: Way)
    requires Reachable(w) && k < |w.conns|
    ensures AllDelivered(w.conns[k], way) <==> Buffered(w.conns[k], way) == []
  {
    StreamIntegrity(w, k);
    var l := w.conns[k].log;
    var n := |l.hello + l.auth + l.request|;
    assert l.toOrigin + w.conns[k].rb.bytes == l.fromClient[n..];
    assert |l.toOrigin + w.conns[k].rb.bytes| == |l.toOrigin| + |w.conns[k].rb.bytes|;
    assert |l.toClient + w.conns[k].wb.bytes| == |l.toClient| + |w.conns[k].wb.bytes|;
    hide Reachable;
  }

  lemma ReachableRuns(w: World, s: Step, steps: seq<Step>)
    requires Reachable(w) && Enabled(w, s) && Next(w, s).Ok? && Possible(Next(w, s).w, steps)
    ensures Reachable(Next(w, s).w)
    ensures Run(Next(w, s).w, steps).Ok? ==> Reachable(Run(Next(w, s).w, steps).w)
  {
    hide Next, Enabled, Reachable;
    NeverAborts(w, s);
    RunReaches(Next(w, s).w, steps);
  }

  lemma {:induction false} RunReaches(w: World, steps: seq<Step>)
    requires Reachable(w) && Possible(w, steps)
    ensures Run(w, steps).Ok? && Reachable(Run(w, steps).w)
    decreases |steps|
  {
    hide Next, Enabled, Reachable;
    if steps != [] {
      NeverAborts(w, steps[0]);
      RunReaches(Next(w, steps[0]).w, steps[1..]);
    }
  }

  /**
   * However a way closes and whatever happens from then on, what was received on it is delivered in full
   * if and only if nothing was buffered when it closed; otherwise the rest is never delivered.
   */
  lemma DeliveredIffEmpty(w: World, s: Step, steps: seq<Step>, k: nat, way: Way)
    requires Reachable(w) && Enabled(w, s) && Next(w, s).Ok? && Possible(Next(w, s).w, steps)
    requires k < |w.conns| && IsOpen(w.conns[k], way) && Closing(w.conns[k], s, way)
    ensures var r := Run(Next(w, s).w, steps);
            && r.Ok? && k < |r.w.conns| && Closed(r.w.conns[k], way) && SameWay(w.conns[k], r.w.conns[k], way)
            && (AllDelivered(r.w.conns[k], way) <==> Buffered(w.conns[k], way) == [])
  {
    hide Reachable, Inv, Next, Enabled, Run, Possible, Closing, Closed, IsOpen, AllDelivered;
    ClosesIff(w, s, k, way);
    ReachableRuns(w, s, steps);
    var w1 := Next(w, s).w;
    ReachableInv(w1);
    ClosedForever(w1, steps, k, way);
    var w2 := Run(w1, steps).w;
    SameChains(w.conns[k], w1.conns[k], w2.conns[k], way);
    DeliveredIfEmpty(w2, k, way);
  }

  /** Every finished relay closed both ways. */
  lemma FinishedIsClosed(w: World, k: nat, way: Way)
    requires Reachable(w) && k < |w.conns| && !w.conns[k].live && w.conns[k].log.copied
    ensures Closed(w.conns[k], way)
  {
    hide Reachable, ConnsOk, TableOk, ObjectsOk, GatesOk, StatsOk, DnsOk, DrainOk, Conserved;
    ReachableInv(w);
    assert Ended(w.conns[k]);
  }
}
