/** What holds of every live connection between two events. */
module SessionInvariant {
  import opened Bytes
  import opened Buffers
  import opened Incremental
  import opened Selector
  import opened Session
  import H = Hello
  import A = Auth
  import R = Request

  /** The table holds exactly the descriptors of the connection, once per reference. */
  ghost predicate Owned(clientFd: int, originFd: int, references: nat, t: Table, id: nat) {
    && !InvalidFd(clientFd) && clientFd in t && t[clientFd].data == id
    && (originFd != -1 ==>
          !InvalidFd(originFd) && originFd != clientFd && originFd in t && t[originFd].data == id)
    && (forall fd :: fd in t && t[fd].data == id ==> fd != -1 && (fd == clientFd || fd == originFd))
    && references == if originFd == -1 then 1 else 2
  }

  ghost predicate Registered(c: Conn, t: Table, id: nat) {
    Owned(c.clientFd, c.originFd, c.references, t, id)
  }

  /** Nothing else in the table moved. */
  ghost predicate Frame(t: Table, t': Table, id: nat) {
    && (forall fd :: fd in t && t[fd].data != id ==> fd in t' && t'[fd] == t[fd])
    && (forall fd :: fd in t' && t'[fd].data != id ==> fd in t && t[fd] == t'[fd])
  }

  ghost function InterestOf(fd: int, t: Table): Interest {
    if fd != -1 && fd in t then t[fd].interest else NOOP
  }

  /** Bytes from the client that have left the read buffer: eaten by a parser or delivered to the origin. */
  ghost function Spent(l: Log): seq<byte> {
    l.hello + l.auth + l.request + l.toOrigin
  }

  /** A buffer between a stream that goes in and one that comes out: no byte is lost, added or reordered. */
  ghost predicate Carries(inn: seq<byte>, q: Queue, out: seq<byte>) {
    q.Canonical() && q.cap == RAW_BUFFER_SIZE && out + q.bytes == inn
  }

  /** Both directions, over the whole connection. */
  ghost predicate Streams(c: Conn) {
    && Carries(c.log.fromClient, c.rb, Spent(c.log))
    && Carries(c.log.replies + c.log.fromOrigin, c.wb, c.log.toClient)
  }

  /** What is left of a connection at its end: the streams, and the replies ahead of what it relayed. */
  ghost predicate Conserved(c: Conn) {
    Streams(c) && (c.log.copied ==> c.log.replies <= c.log.toClient)
  }

  /** The resolution list is freed only where an origin descriptor has had its answer. */
  ghost predicate ListKept(c: Conn) {
    c.resolution == if c.originFd == -1 then c.log.resolved else []
  }

  /** A relay ends with both directions closed, and the list is where `ListKept` says. */
  ghost predicate Ended(c: Conn) {
    (c.log.copied ==> c.client == ClientCopy(NOOP) && c.origin == OriginCopy(NOOP)) && ListKept(c)
  }

  /** The replies that precede the answer to the request. */
  ghost function Prelude(chosen: byte, gate: Gate): seq<byte> {
    H.Reply(chosen) + if gate.Matched? then A.Reply(A.SUCCEEDED) else []
  }

  ghost predicate NotCopying(l: Log) {
    l.toOrigin == [] && l.fromOrigin == [] && !l.copied && !l.touched
  }

  /** The parser is a function of the bytes eaten and of how many of them came before the flag fell. */
  ghost predicate HelloTracks(l: Log, p: H.Negotiation, authOn: bool) {
    && (!l.authAtHello ==> !authOn)
    && (l.authAtHello == authOn ==> l.early == |l.hello|)
    && Cut(l.authAtHello, l.hello, l.early) && H.Negotiated(l.authAtHello, l.hello, l.early) == Parse(p, |l.hello|)
  }

  /** The reason recorded for letting the connection through is true of the bytes it sent. */
  ghost predicate Admitted(gate: Gate, auth: seq<byte>, asked: bool) {
    && gate != Shut && gate.Matched? == asked
    && (gate.Matched? ==>
          var cred := A.Parsed(A.INIT, auth).st; cred.state == A.Done && Matches(gate.user, cred))
  }

  /** Credentials are asked for only if the flag was up during the whole offer. */
  ghost predicate Asked(l: Log) {
    l.authAtFlush ==> l.authAtHello && l.early == |l.hello|
  }

  ghost predicate CompleteConnect(c: Conn) {
    c.client.RequestSt? && c.client.req.state == R.Done && c.client.req.cmd == R.CONNECT
  }

  /** The connection aims at the address the request named, or at one its name resolved to. */
  ghost predicate Aimed(c: Conn) {
    var r := R.Parsed(R.INIT, c.log.request).st;
    if r.atyp == R.DOMAIN then c.target in c.log.resolved else c.target == TargetOf(r)
  }

  ghost predicate InFlight(c: Conn) {
    c.spawned || c.phase == RequestResolv
  }

  /** The flag can only fall, and it falls before the offer is complete. */
  ghost predicate Cut(authAtHello: bool, hello: seq<byte>, early: nat) {
    && early <= |hello|
    && (early < |hello| ==> authAtHello && !H.IsDone(H.Parsed(authAtHello, H.INIT, hello[..early]).st))
  }

  /** The method announced is the one the parser selects in the offer. */
  ghost predicate ChosenRight(authAtHello: bool, hello: seq<byte>, early: nat, chosen: byte) {
    && Cut(authAtHello, hello, early)
    && var p := H.Negotiated(authAtHello, hello, early);
       p.st.state == H.Done && p.st.chosen == chosen && p.eaten == |hello|
  }

  ghost predicate Common(c: Conn) {
    && c.live && Streams(c) && Asked(c.log)
    && (c.phase == Fresh || c.phase == HelloRead
        || ChosenRight(c.log.authAtHello, c.log.hello, c.log.early, c.log.chosen))
    && (c.spawned ==> c.phase == RequestRead)
    && (if InFlight(c) then c.log.spawns == 1 && c.log.dispatches == 0
        else c.log.spawns == c.log.dispatches <= 1)
    && (c.phase == RequestRead && !c.spawned ==> c.log.spawns == 0)
    && (c.phase != Copy ==> NotCopying(c.log))
  }

  ghost predicate Handshaking(c: Conn, ci: Interest, authOn: bool) {
    && c.originFd == -1 && c.log.request == [] && c.log.spawns == 0 && c.resolution == c.log.resolved == []
    && match c.phase
       case Fresh => ci == READ && c == NewConn(c.obj, c.clientFd)
       case HelloRead =>
         && ci == READ && c.log.replies == [] && c.log.auth == [] && c.log.gate == Shut && !c.log.authAtFlush
         && c.client.HelloSt? && !H.IsDone(c.client.hello) && HelloTracks(c.log, c.client.hello, authOn)
       case HelloWrite =>
         && ci == WRITE && c.log.replies == H.Reply(c.log.chosen) && c.log.auth == [] && c.log.gate == Shut
         && c.client.HelloSt? && (authOn ==> c.log.authAtHello && c.log.early == |c.log.hello|)
       case AuthRead =>
         && c.log.authAtFlush && (c.log.auth != [] ==> c.rb.bytes == [])
         && ci == READ && c.log.replies == H.Reply(c.log.chosen) && c.log.gate == Shut
         && c.wb.bytes == []
         && c.client.AuthSt? && c.client.auth == A.Parsed(A.INIT, c.log.auth).st && !A.IsDone(c.client.auth)
       case AuthWrite =>
         && c.log.authAtFlush && ci == WRITE && c.client.AuthSt? && c.client.auth.state == A.Done
         && c.client.auth == A.Parsed(A.INIT, c.log.auth).st
         && c.log.replies == H.Reply(c.log.chosen) + A.Reply(c.client.verdict)
         && (c.client.verdict == A.SUCCEEDED ==>
               c.log.gate.Matched? && Admitted(c.log.gate, c.log.auth, c.log.authAtFlush))
       case _ => false
  }

  ghost predicate Requesting(c: Conn, ci: Interest, oi: Interest) {
    && c.client.RequestSt? && c.client.req == R.Parsed(R.INIT, c.log.request).st
    && Admitted(c.log.gate, c.log.auth, c.log.authAtFlush)
    && (if c.phase == RequestWrite then ListKept(c) else c.resolution == c.log.resolved)
    && match c.phase
       case RequestRead =>
         && ci == READ && c.originFd == -1 && c.wb.bytes == [] && c.log.replies == Prelude(c.log.chosen, c.log.gate)
         && c.client.status == R.GENERAL_FAILURE
         && (if c.spawned then CompleteConnect(c) && c.client.req.atyp == R.DOMAIN
             else !R.IsDone(c.client.req) && c.resolution == [] && (c.log.request != [] ==> c.rb.bytes == []))
       case RequestResolv =>
         && ci == NOOP && c.originFd == -1 && c.wb.bytes == [] && c.log.replies == Prelude(c.log.chosen, c.log.gate)
         && CompleteConnect(c) && c.client.req.atyp == R.DOMAIN && c.client.status == R.GENERAL_FAILURE
       case RequestConnecting =>
         && ci == NOOP && c.originFd != -1 && oi == WRITE && c.wb.bytes == []
         && c.log.replies == Prelude(c.log.chosen, c.log.gate)
         && CompleteConnect(c) && c.origin.Connecting? && Aimed(c)
         && (if c.client.req.atyp == R.DOMAIN then c.tried < |c.resolution| && c.target == c.resolution[c.tried]
             else c.resolution == [])
       case RequestWrite =>
         && ci == WRITE && oi == NOOP && c.log.replies == Prelude(c.log.chosen, c.log.gate) + R.Reply(c.client.status)
         && (c.client.status == R.SUCCEEDED ==> c.originFd != -1) && (c.originFd != -1 ==> Aimed(c))
       case _ => false
  }

  ghost predicate Mirrored(c: Conn) {
    && c.client.ClientCopy? && c.origin.OriginCopy?
    && c.client.cDuplex.read == c.origin.oDuplex.write && c.client.cDuplex.write == c.origin.oDuplex.read
  }

  ghost predicate Copying(c: Conn, ci: Interest, oi: Interest) {
    && c.phase == Copy && c.originFd != -1 && c.log.copied && Admitted(c.log.gate, c.log.auth, c.log.authAtFlush)
    && Aimed(c)
    && c.log.replies == Prelude(c.log.chosen, c.log.gate) + R.Reply(R.SUCCEEDED)
    && c.log.replies <= c.log.toClient && c.resolution == []
    && Mirrored(c) && c.client.cDuplex != NOOP
    && if c.log.touched then ci == ClientWants(c) && oi == OriginWants(c)
       else ci == READ && oi == READ && c.client.cDuplex == BOTH && c.wb.bytes == [] && c.log.toOrigin == []
  }

  ghost predicate PhaseInv(c: Conn, ci: Interest, oi: Interest, authOn: bool) {
    match c.phase
    case Fresh => Handshaking(c, ci, authOn)
    case HelloRead => Handshaking(c, ci, authOn)
    case HelloWrite => Handshaking(c, ci, authOn)
    case AuthRead => Handshaking(c, ci, authOn)
    case AuthWrite => Handshaking(c, ci, authOn)
    case Copy => Copying(c, ci, oi)
    case Done => false
    case Error => false
    case _ => Requesting(c, ci, oi)
  }

  ghost predicate ConnInv(c: Conn, t: Table, id: nat, authOn: bool) {
    && Registered(c, t, id) && Common(c)
    && PhaseInv(c, InterestOf(c.clientFd, t), InterestOf(c.originFd, t), authOn)
  }

  /** A retry gets a new descriptor registered. */
  ghost predicate RetryReaches(c: Conn, t: Table, io: Io) {
    && io.connect.InProgress? && !InvalidFd(io.connect.fd)
    && (io.connect.fd !in t || io.connect.fd == c.originFd)
  }

  /** What a handler leaves behind, once the engine has jumped: a good state, or a terminal one to settle. */
  ghost predicate Jumped(o: Out, t: Table, id: nat) {
    && o.Out? && Frame(t, o.t, id) && o.c.phase == o.ret
    && if o.ret == Done || o.ret == Error then o.c.live && Registered(o.c, o.t, id) && Conserved(o.c) && Ended(o.c)
       else ConnInv(o.c, o.t, id, o.g.authOn)
  }

  lemma InterestOnOwn(clientFd: int, originFd: int, references: nat, t: Table, id: nat, fd: int, i: Interest)
    requires Owned(clientFd, originFd, references, t, id) && (fd == clientFd || (fd == originFd && fd != -1))
    ensures var s := AfterSetInterest(t, fd, i);
            && s.status == SUCCESS && Frame(t, s.table, id) && Owned(clientFd, originFd, references, s.table, id)
            && InterestOf(fd, s.table) == i
            && (forall k :: k != fd ==> InterestOf(k, s.table) == InterestOf(k, t))
  {
  }

  lemma RegisterOwn(clientFd: int, references: nat, t: Table, id: nat, fd: int, i: Interest)
    requires Owned(clientFd, -1, references, t, id)
    ensures var s := AfterRegister(t, fd, i, id);
            && Frame(t, s.table, id)
            && (s.status == SUCCESS ==>
                  && Owned(clientFd, fd, references + 1, s.table, id) && fd != -1
                  && InterestOf(fd, s.table) == i && InterestOf(clientFd, s.table) == InterestOf(clientFd, t))
            && (s.status != SUCCESS ==> s.table == t)
  {
  }

  lemma UnregisterOrigin(clientFd: int, originFd: int, references: nat, t: Table, id: nat)
    requires Owned(clientFd, originFd, references, t, id) && originFd != -1
    ensures var s := AfterUnregister(t, originFd);
            && s.status == SUCCESS && Frame(t, s.table, id) && Owned(clientFd, -1, references - 1, s.table, id)
            && InterestOf(clientFd, s.table) == InterestOf(clientFd, t)
  {
  }

  lemma FrameSelf(t: Table, id: nat)
    ensures Frame(t, t, id)
  {
  }

  lemma FrameChains(t: Table, u: Table, v: Table, id: nat)
    requires Frame(t, u, id) && Frame(u, v, id)
    ensures Frame(t, v, id)
  {
  }
}
