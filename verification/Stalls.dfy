/** When a connection waits for nothing: the relay, and the states that read the handshake. */
module Stalls {
  import opened Bytes
  import opened Buffers
  import opened Selector
  import opened Session
  import opened SessionInvariant
  import opened SessionProofs
  import opened World
  import opened WorldInvariant
  import opened Guarantees
  import H = Hello
  import A = Auth
  import R = Request

  /** Bytes of the client that no parser has eaten. */
  ghost function Eaten(l: Log): nat {
    |l.hello| + |l.auth| + |l.request|
  }

  /** What the client sent behind the messages that were parsed. */
  ghost function Pipelined(l: Log): seq<byte> {
    if Eaten(l) <= |l.fromClient| then l.fromClient[Eaten(l)..] else []
  }

  lemma PipelinedIs(w: World, k: nat)
    requires Reachable(w) && k < |w.conns|
    ensures var c := w.conns[k];
            && Pipelined(c.log) == c.log.toOrigin + c.rb.bytes
            && |c.log.fromClient| == Eaten(c.log) + |Pipelined(c.log)|
            && c.rb.Canonical() && c.rb.cap == c.wb.cap == RAW_BUFFER_SIZE && c.wb.Canonical()
  {
    StreamIntegrity(w, k);
    ReachableConserved(w, k);
    var l := w.conns[k].log;
    assert |l.hello + l.auth + l.request| == Eaten(l);
    hide Reachable;
  }

  // ---------------------------------------------------------------- the relay

  /** An open direction: its source is watched while there is room, its sink while there is something to send. */
  predicate Flows(open: bool, source: Interest, q: Queue, sink: Interest) {
    open ==> source.read == q.CanWrite() && sink.write == q.CanRead()
  }

  ghost predicate NoStall(c: Conn, t: Table) {
    var ci, oi := InterestOf(c.clientFd, t), InterestOf(c.originFd, t);
    && c.client.ClientCopy? && c.origin.OriginCopy?
    && Flows(c.client.cDuplex.read, ci, c.rb, oi) && Flows(c.origin.oDuplex.read, oi, c.wb, ci)
  }

  /** A direction that flows makes progress: somebody is watched, and a watched source has room. */
  lemma FlowingIsLive(source: Interest, q: Queue, sink: Interest)
    requires Flows(true, source, q, sink) && q.Canonical() && q.cap > 0
    ensures (source.read || sink.write) && (source.read ==> q.Space() > 0)
  {
  }

  lemma RelayState(w: World, k: nat)
    requires Reachable(w) && k < |w.conns| && w.conns[k].live && w.conns[k].phase == Copy
    ensures var c := w.conns[k];
            Copying(c, InterestOf(c.clientFd, w.t), InterestOf(c.originFd, w.t))
  {
    hide Reachable, Copying, Registered, Common;
    ReachableConn(w, k);
  }

  /** From the first relay event on nothing stalls; before it, exactly if the client waited for the reply. */
  lemma NoStallIff(w: World, k: nat)
    requires Reachable(w) && k < |w.conns| && w.conns[k].live && w.conns[k].phase == Copy
    ensures var c := w.conns[k]; NoStall(c, w.t) <==> c.log.touched || |c.log.fromClient| == Eaten(c.log)
  {
    RelayState(w, k);
    PipelinedIs(w, k);
    hide Reachable, Aimed, Admitted, Prelude, Pipelined, Eaten;
  }

  /**
   * The client is watched although there is no room for what it sends exactly if no relay event has
   * happened and what it pipelined fills the buffer to its end. The origin never is.
   */
  lemma NoRoomIff(w: World, k: nat)
    requires Reachable(w) && k < |w.conns| && w.conns[k].live && w.conns[k].phase == Copy
    ensures var c := w.conns[k];
            && (InterestOf(c.clientFd, w.t).read && c.rb.Space() == 0 <==>
                !c.log.touched && c.rb.off + |Pipelined(c.log)| == RAW_BUFFER_SIZE)
            && (InterestOf(c.originFd, w.t).read ==> c.wb.Space() > 0)
  {
    RelayState(w, k);
    PipelinedIs(w, k);
    hide Reachable, Aimed, Admitted, Prelude, Pipelined, Eaten;
  }

  /**
   * Bytes that the client offers are taken for its end exactly in that case, and lost with the rest of
   * the direction; in every other case some of them are buffered.
   */
  lemma FullBufferReadsAsEof(w: World, k: nat, io: Io)
    requires Reachable(w) && k < |w.conns| && w.conns[k].live && w.conns[k].phase == Copy && io.recv != []
    requires InterestOf(w.conns[k].clientFd, w.t).read
    ensures var c := w.conns[k];
            var o := CopyReadH(c, w.t, w.g, c.clientFd, io);
            && o.Out?
            && if !c.log.touched && c.rb.off + |Pipelined(c.log)| == RAW_BUFFER_SIZE
               then !o.c.client.cDuplex.read && !o.c.origin.oDuplex.write && o.c.rb == c.rb
               else o.c.client.cDuplex.read && o.c.client == c.client && o.c.origin == c.origin
                    && c.log.fromClient < o.c.log.fromClient
  {
    var c := w.conns[k];
    hide Reachable, ConnInv, Jumped, CopyReadH, Pipelined, Eaten;
    ReachableConn(w, k);
    CopyReadKeeps(c, w.t, w.g, k + 1, c.clientFd, io);
    PipelinedIs(w, k);
    NoRoomIff(w, k);
    RelayState(w, k);
    WatchedIsOpen(c, InterestOf(c.clientFd, w.t), InterestOf(c.originFd, w.t));
    ReadsOrCloses(c, w.t, w.g, io);
    assert CopyReadH(c, w.t, w.g, c.clientFd, io).Out? by { JumpNeedsOut(CopyReadH(c, w.t, w.g, c.clientFd, io)); }
  }

  lemma JumpNeedsOut(h: Out)
    ensures Jump(h).Out? ==> h.Out?
  {
  }

  lemma WatchedIsOpen(c: Conn, ci: Interest, oi: Interest)
    requires Copying(c, ci, oi) && ci.read
    ensures c.client.ClientCopy? && c.origin.OriginCopy? && c.client.cDuplex.read
  {
    hide Aimed, Admitted, Prelude;
  }

  lemma ReadsOrCloses(c: Conn, t: Table, g: Globals, io: Io)
    requires c.client.ClientCopy? && c.origin.OriginCopy? && c.client.cDuplex.read && c.rb.Canonical() && io.recv != []
    ensures var o := CopyReadH(c, t, g, c.clientFd, io);
            o.Out? ==>
              if c.rb.Space() == 0 then !o.c.client.cDuplex.read && !o.c.origin.oDuplex.write && o.c.rb == c.rb
              else o.c.client.cDuplex.read && o.c.client == c.client && o.c.origin == c.origin
                   && c.log.fromClient < o.c.log.fromClient
  {
    hide AfterSetInterest;
  }

  // ---------------------------------------------------------------- the handshake

  predicate Reading(c: Conn) {
    c.phase == AuthRead || (c.phase == RequestRead && !c.spawned)
  }

  /** Nothing has been received in this state yet. */
  predicate JustEntered(c: Conn) {
    if c.phase == AuthRead then c.log.auth == [] else c.log.request == []
  }

  /**
   * A state that reads credentials or a request watches the client and nothing else, and has parsed all
   * the client sent unless it has just been entered with bytes already there: then they wait for more.
   */
  lemma HandshakeStallIff(w: World, k: nat)
    requires Reachable(w) && k < |w.conns| && w.conns[k].live && Reading(w.conns[k])
    ensures var c := w.conns[k];
            && InterestOf(c.clientFd, w.t) == READ && c.originFd == -1
            && (c.rb.bytes == [] <==> !JustEntered(c) || |c.log.fromClient| == Eaten(c.log))
  {
    PipelinedIs(w, k);
    ReachableConn(w, k);
    ReadingState(w.conns[k], w.t, k + 1, w.g.authOn);
    hide Reachable, ConnInv, Pipelined, Eaten;
  }

  lemma ReadingState(c: Conn, t: Table, id: nat, authOn: bool)
    requires ConnInv(c, t, id, authOn) && Reading(c)
    ensures InterestOf(c.clientFd, t) == READ && c.originFd == -1 && c.log.toOrigin == []
    ensures !JustEntered(c) ==> c.rb.bytes == []
  {
    hide H.Parsed, A.Parsed, R.Parsed, Owned, Admitted, ChosenRight, Streams;
  }
}
