/**
 * What every event makes of its connection: the state it goes to and the bytes it says, for everything
 * the peers may send and the kernel may answer.
 */
module Progress {
  import opened Bytes
  import opened Buffers
  import opened Incremental
  import opened Selector
  import opened Session
  import opened SessionInvariant
  import opened SessionProofs
  import opened SessionEngine
  import opened Completeness
  import H = Hello
  import A = Auth
  import R = Request

  /** How many of the bytes on offer there is room for. */
  function Room(q: Queue, offered: seq<byte>): (n: nat)
    ensures n <= |offered|
  {
    if |offered| <= q.Space() then |offered| else if q.Space() <= 0 then 0 else q.Space()
  }

  lemma ReceivedIs(q: Queue, offered: seq<byte>)
    ensures Received(q, offered) == offered[..Room(q, offered)]
  {
    assert offered[..|offered|] == offered;
  }

  /** The event ends in the state its handler returns. */
  lemma Lands(h: Out)
    ensures Settle(Jump(h)).Out? ==> h.Out? && Settle(Jump(h)).c.phase == h.ret
    ensures Settle(Jump(h)).Out? && h.ret != Done && h.ret != Error ==> Settle(Jump(h)) == Jump(h)
    ensures Settle(Jump(h)).Out? ==> Settle(Jump(h)).c.log == h.c.log && Settle(Jump(h)).c.wb == h.c.wb
  {
    JumpLands(h);
    SettleStays(Jump(h));
    hide AfterUnregister, Arrive;
    assert Jump(h).Out? ==> h.Out?;
    ArriveKeeps(if h.Out? then h.c.(phase := h.ret) else NewConn(0, 0));
  }

  lemma ArriveKeeps(c: Conn)
    ensures Arrive(c).log == c.log && Arrive(c).wb == c.wb && Arrive(c).rb == c.rb
  {
  }

  // ---------------------------------------------------------------- resuming a parse

  lemma AuthResumes(eaten: seq<byte>, bs: seq<byte>)
    requires !A.IsDone(A.Parsed(A.INIT, eaten).st)
    ensures A.Parsed(A.Parsed(A.INIT, eaten).st, bs).st == A.Parsed(A.INIT, eaten + bs).st
    ensures A.Parsed(A.INIT, eaten + bs).eaten == |eaten| + A.Parsed(A.Parsed(A.INIT, eaten).st, bs).eaten
  {
    ConsumeSplit(A.Feeder(), A.IsDone, A.INIT, eaten, bs);
  }

  lemma RequestResumes(eaten: seq<byte>, bs: seq<byte>)
    requires !R.IsDone(R.Parsed(R.INIT, eaten).st)
    ensures R.Parsed(R.Parsed(R.INIT, eaten).st, bs).st == R.Parsed(R.INIT, eaten + bs).st
    ensures R.Parsed(R.INIT, eaten + bs).eaten == |eaten| + R.Parsed(R.Parsed(R.INIT, eaten).st, bs).eaten
  {
    ConsumeSplit(R.Feeder(), R.IsDone, R.INIT, eaten, bs);
  }

  lemma OfferResumes(l: Log, p: H.Negotiation, authOn: bool, bs: seq<byte>)
    requires HelloTracks(l, p, authOn) && !H.IsDone(p)
    ensures H.Parsed(authOn, p, bs).st.state == H.Parsed(false, H.INIT, l.hello + bs).st.state
    ensures H.Parsed(false, H.INIT, l.hello + bs).eaten == |l.hello| + H.Parsed(authOn, p, bs).eaten
  {
    hide H.Next, H.IsDone;
    var a, b := l.hello[..l.early], l.hello[l.early..];
    assert l.hello == a + b;
    FlagIgnored(l.authAtHello, false, H.INIT, H.INIT, a);
    var q, q0 := H.Parsed(l.authAtHello, H.INIT, a), H.Parsed(false, H.INIT, a);
    FlagIgnored(false, false, q.st, q0.st, b);
    OfferNotDone(l, p, authOn);
    ConsumeSplit(H.Feeder(false), H.IsDone, H.INIT, a, b);
    var p0 := H.Parsed(false, H.INIT, l.hello);
    FlagIgnored(authOn, false, p, p0.st, bs);
    ConsumeSplit(H.Feeder(false), H.IsDone, H.INIT, l.hello, bs);
  }

  /** The offer so far, parsed with the flag down, is as unfinished as it is. */
  lemma OfferNotDone(l: Log, p: H.Negotiation, authOn: bool)
    requires HelloTracks(l, p, authOn) && !H.IsDone(p)
    ensures !H.IsDone(H.INIT) && !H.IsDone(H.Parsed(l.authAtHello, H.INIT, l.hello[..l.early]).st)
    ensures !H.IsDone(H.Parsed(false, H.INIT, l.hello[..l.early]).st)
    ensures var q := H.Parsed(false, H.INIT, l.hello);
            q.st.state == p.state && q.st.remaining == p.remaining && !H.IsDone(q.st)
  {
    var a, b := l.hello[..l.early], l.hello[l.early..];
    assert l.hello == a + b;
    FlagIgnored(l.authAtHello, false, H.INIT, H.INIT, a);
    var q, q0 := H.Parsed(l.authAtHello, H.INIT, a), H.Parsed(false, H.INIT, a);
    if b == [] {
      assert a == l.hello;
    }
    FlagIgnored(false, false, q.st, q0.st, b);
    ConsumeSplit(H.Feeder(false), H.IsDone, H.INIT, a, b);
  }

  // ---------------------------------------------------------------- what arrives at a handshake

  /** The message a state reads, as far as it has come with this event. */
  ghost function Message(eaten: seq<byte>, q: Queue, offered: seq<byte>): seq<byte> {
    eaten + (q.bytes + offered[..Room(q, offered)])
  }

  /** The same state, with everything eaten that is there, and nothing else changed. */
  ghost predicate Waits(c: Conn, t: Table, g: Globals, o: Out, arrived: seq<byte>) {
    && o.Out? && o.t == t && o.g == g && o.ret == c.phase
    && o.c == c.(rb := Empty(RAW_BUFFER_SIZE), client := o.c.client,
                 log := c.log.(fromClient := c.log.fromClient + arrived, hello := o.c.log.hello, early := o.c.log.early,
                               auth := o.c.log.auth, request := o.c.log.request))
  }

  lemma ReadingHas(c: Conn, t: Table, id: nat, authOn: bool)
    requires ConnInv(c, t, id, authOn)
    requires c.phase == HelloRead || c.phase == AuthRead || (c.phase == RequestRead && !c.spawned)
    ensures c.live && c.rb.Canonical() && c.rb.cap == RAW_BUFFER_SIZE && c.wb == Empty(RAW_BUFFER_SIZE)
    ensures Registered(c, t, id) && c.originFd == -1 && c.references == 1 && InterestOf(c.clientFd, t) == READ
    ensures c.phase == HelloRead ==> c.client.HelloSt? && !H.IsDone(c.client.hello)
                                     && HelloTracks(c.log, c.client.hello, authOn) && c.log.replies == []
    ensures c.phase == AuthRead ==> c.client.AuthSt? && !A.IsDone(c.client.auth)
                                    && c.client.auth == A.Parsed(A.INIT, c.log.auth).st && c.log.gate == Shut
    ensures c.phase == RequestRead ==> c.client.RequestSt? && !R.IsDone(c.client.req)
                                       && c.client.req == R.Parsed(R.INIT, c.log.request).st
                                       && c.client.status == R.GENERAL_FAILURE && c.resolution == []
  {
    hide H.Parsed, A.Parsed, R.Parsed, H.Negotiated, Owned, Admitted, ChosenRight, Spent;
    OneReference(c.clientFd, c.originFd, c.references, t, id);
    if c.phase == HelloRead {
      NothingBuffered(c.log.replies + c.log.fromOrigin, c.wb, c.log.toClient);
    }
  }

  lemma OneReference(clientFd: int, originFd: int, references: nat, t: Table, id: nat)
    requires Owned(clientFd, originFd, references, t, id)
    ensures originFd == -1 ==> references == 1
  {
  }

  lemma HelloAte(c: Conn, authOn: bool, data: seq<byte>)
    requires c.client.HelloSt? && HelloTracks(c.log, c.client.hello, authOn) && !H.IsDone(c.client.hello)
    ensures var d := AfterHello(c, authOn, data);
            var m := c.log.hello + (c.rb.bytes + data);
            && d.client.HelloSt?
            && (d.client.hello.state == H.Done <==> OfferComplete(m))
            && (d.client.hello.state == H.UnsupportedVersion <==> WrongVersion(m, 5))
            && d.wb == c.wb && d.phase == c.phase && d.log.replies == c.log.replies
            && (!H.IsDone(d.client.hello) ==>
                  && d == c.(rb := Empty(c.rb.cap), client := d.client,
                             log := c.log.(fromClient := c.log.fromClient + data, hello := m, early := d.log.early)))
  {
    hide H.Next, HelloTracks, H.IsDone;
    var q := c.rb.Put(data);
    OfferResumes(c.log, c.client.hello, authOn, q.bytes);
    OfferStateIff(false, c.log.hello + q.bytes);
    assert q.bytes[..|q.bytes|] == q.bytes;
    hide H.Parsed;
    DoneIs(AfterHello(c, authOn, data).client.hello);
  }

  lemma DoneIs(p: H.Negotiation)
    ensures H.IsDone(p) <==> p.state == H.Done || p.state == H.UnsupportedVersion
  {
  }

  /** hello_read: released for nothing or a wrong version; on to the answer when the offer is complete; else waiting. */
  lemma HelloReadGoes(c: Conn, t: Table, g: Globals, id: nat, io: Io)
    requires ConnInv(c, t, id, g.authOn) && c.phase == HelloRead
    ensures var o := Settle(Jump(HelloReadH(c, t, g, c.clientFd, io)));
            var n, m := Room(c.rb, io.recv), Message(c.log.hello, c.rb, io.recv);
            && o.Out?
            && if n == 0 || WrongVersion(m, 5) then o.c.phase == Error
               else if OfferComplete(m) then o.c.phase == HelloWrite && o.c.wb.bytes == [5, o.c.log.chosen]
               else Waits(c, t, g, o, io.recv[..n]) && o.c.log.hello == m
  {
    hide ConnInv, Jumped, AfterHello, Settle, Jump, HelloTracks, H.Parsed, Received, Kept, AfterSetInterest, Owned;
    hide Registered, H.IsDone, Greeting, HelloReadH;
    ReadingHas(c, t, id, g.authOn);
    HelloReadKeeps(c, t, g, id, io);
    SettleKeeps(Jump(HelloReadH(c, t, g, c.clientFd, io)), t, id);
    var data := io.recv[..Room(c.rb, io.recv)];
    ReceivedIs(c.rb, io.recv);
    Lands(HelloReadH(c, t, g, c.clientFd, io));
    HelloAte(c, g.authOn, data);
    DoneIs(AfterHello(c, g.authOn, data).client.hello);
    HelloReadIs(c, t, g, id, io, data);
    StaysSettled(AfterHello(c, g.authOn, data), t, g);
  }

  /** The outcome of the handler, by what it ate. */
  lemma HelloReadIs(c: Conn, t: Table, g: Globals, id: nat, io: Io, data: seq<byte>)
    requires c.client.HelloSt? && c.phase == HelloRead && data == Received(c.rb, io.recv)
    requires Registered(c, t, id) && c.wb == Empty(RAW_BUFFER_SIZE)
    requires AfterHello(c, g.authOn, data).client.HelloSt? && AfterHello(c, g.authOn, data).wb == c.wb
    ensures var d := AfterHello(c, g.authOn, data);
            var h := HelloReadH(c, t, g, c.clientFd, io);
            && h.Out?
            && (data == [] || d.client.hello.state == H.UnsupportedVersion ==> h.ret == Error)
            && (data != [] && !H.IsDone(d.client.hello) ==> h == Out(d, t, g, HelloRead))
            && (data != [] && d.client.hello.state == H.Done ==>
                  h.ret == HelloWrite && h.c.wb == Queue(RAW_BUFFER_SIZE, 0, [5, h.c.log.chosen]))
  {
    hide Owned;
    InterestOnOwn(c.clientFd, c.originFd, c.references, t, id, c.clientFd, WRITE);
    hide AfterHello, AfterSetInterest, Received;
  }

  // ---------------------------------------------------------------- credentials

  lemma AuthAte(c: Conn, data: seq<byte>)
    requires c.client.AuthSt? && c.client.auth == A.Parsed(A.INIT, c.log.auth).st && !A.IsDone(c.client.auth)
    ensures var d := AfterAuth(c, data);
            var m := c.log.auth + (c.rb.bytes + data);
            && d.client == AuthSt(A.Parsed(A.INIT, m).st, c.client.verdict)
            && (d.client.auth.state == A.Done <==> CredentialsComplete(m))
            && (d.client.auth.state == A.UnsupportedVersion <==> WrongVersion(m, 1))
            && d.wb == c.wb && d.phase == c.phase && d.log.replies == c.log.replies
            && (!A.IsDone(d.client.auth) ==>
                  d == c.(rb := Empty(c.rb.cap), client := d.client,
                          log := c.log.(fromClient := c.log.fromClient + data, auth := m)))
  {
    hide A.Next;
    var q := c.rb.Put(data);
    AuthResumes(c.log.auth, q.bytes);
    CredentialsStateIff(c.log.auth + q.bytes);
    assert q.bytes[..|q.bytes|] == q.bytes;
    hide A.Parsed;
  }

  /** The user table holds the pair the message names. */
  ghost predicate Stored(users: seq<User>, cred: A.Credentials) {
    exists i :: 0 <= i < |users| && users[i].name == CString(cred.uname) && users[i].pass == CString(cred.passwd)
  }

  /** The verdict on complete credentials, and the two bytes that tell it. */
  lemma VerdictIs(c: Conn, t: Table, g: Globals, cred: A.Credentials)
    requires c.client.AuthSt? && c.wb.Space() >= 2 && !A.Errored(cred)
    ensures var o := AuthProcess(c, t, g, cred);
            && o.Out? && o.ret == AuthWrite && o.t == t && o.g == g
            && (o.c.client.verdict == A.SUCCEEDED <==> Stored(g.users, cred))
            && o.c.client.AuthSt?
            && o.c.log.replies == c.log.replies + (if Stored(g.users, cred) then [1, 0] else [1, 1])
            && o.c.wb == c.wb.Put(if Stored(g.users, cred) then [1, 0] else [1, 1])
            && (o.c.log.gate.Matched? <==> Stored(g.users, cred))
  {
    var found := FindUser(g.users, cred);
    if found != Shut {
      var i :| 0 <= i < |g.users| && g.users[i] == found.user;
    }
    hide FindUser, CString;
  }

  /** The outcome of the handler, by what it ate. */
  lemma AuthReadIs(c: Conn, t: Table, g: Globals, id: nat, io: Io, data: seq<byte>)
    requires c.client.AuthSt? && c.phase == AuthRead && data == Received(c.rb, io.recv)
    requires Registered(c, t, id) && c.wb == Empty(RAW_BUFFER_SIZE)
    requires AfterAuth(c, data).client.AuthSt? && AfterAuth(c, data).wb == c.wb
    ensures var d := AfterAuth(c, data);
            var h := AuthReadH(c, t, g, c.clientFd, io);
            && h.Out?
            && (data == [] || d.client.auth.state == A.UnsupportedVersion ==> h.ret == Error)
            && (data != [] && !A.IsDone(d.client.auth) ==> h == Out(d, t, g, AuthRead))
            && (data != [] && d.client.auth.state == A.Done ==>
                  && h.ret == AuthWrite && h.c.client.AuthSt?
                  && (h.c.client.verdict == A.SUCCEEDED <==> Stored(g.users, d.client.auth))
                  && (h.c.log.gate.Matched? <==> Stored(g.users, d.client.auth))
                  && h.c.wb == c.wb.Put(if Stored(g.users, d.client.auth) then [1, 0] else [1, 1]))
  {
    hide Owned, AfterAuth, AfterSetInterest, Received, AuthProcess, Stored, A.IsDone;
    InterestOnOwn(c.clientFd, c.originFd, c.references, t, id, c.clientFd, WRITE);
    var d := AfterAuth(c, data);
    var u := AfterSetInterest(t, c.clientFd, WRITE).table;
    CredentialsDone(d.client.auth);
    if d.client.auth.state == A.UnsupportedVersion {
      ErrorReturned(d, u, g, d.client.auth);
    } else {
      VerdictIs(d, u, g, d.client.auth);
    }
  }

  lemma CredentialsDone(p: A.Credentials)
    ensures A.IsDone(p) <==> p.state == A.Done || p.state == A.UnsupportedVersion
  {
  }

  /** auth_read: released for nothing or a wrong version; the verdict when the message is complete; else waiting. */
  lemma AuthReadGoes(c: Conn, t: Table, g: Globals, id: nat, io: Io)
    requires ConnInv(c, t, id, g.authOn) && c.phase == AuthRead
    ensures var o := Settle(Jump(AuthReadH(c, t, g, c.clientFd, io)));
            var n, m := Room(c.rb, io.recv), Message(c.log.auth, c.rb, io.recv);
            && o.Out?
            && if n == 0 || WrongVersion(m, 1) then o.c.phase == Error
               else if CredentialsComplete(m) then VerdictQueued(c, g.users, o, A.Parsed(A.INIT, m).st)
               else Waits(c, t, g, o, io.recv[..n]) && o.c.log.auth == m
  {
    hide ConnInv, Jumped, AfterAuth, Settle, Jump, A.Parsed, Received, Kept, AuthReadH, Registered, Stored, A.IsDone;
    ReadingHas(c, t, id, g.authOn);
    AuthReadKeeps(c, t, g, id, io);
    SettleKeeps(Jump(AuthReadH(c, t, g, c.clientFd, io)), t, id);
    var data := io.recv[..Room(c.rb, io.recv)];
    ReceivedIs(c.rb, io.recv);
    Lands(AuthReadH(c, t, g, c.clientFd, io));
    AuthAte(c, data);
    CredentialsDone(AfterAuth(c, data).client.auth);
    AuthReadIs(c, t, g, id, io, data);
    StaysSettled(AfterAuth(c, data), t, g);
    if data != [] && AfterAuth(c, data).client.auth.state == A.Done {
      LandsAnswering(AuthReadH(c, t, g, c.clientFd, io));
    }
  }

  lemma ErrorReturned(c: Conn, t: Table, g: Globals, cred: A.Credentials)
    requires A.Errored(cred) && c.client.AuthSt? && c.wb.Space() >= 2
    ensures AuthProcess(c, t, g, cred).Out? && AuthProcess(c, t, g, cred).ret == Error
  {
    hide FindUser;
  }

  lemma LandsAnswering(h: Out)
    requires h.Out? && h.ret == AuthWrite
    ensures Settle(Jump(h)) == Out(h.c.(phase := AuthWrite), h.t, h.g, AuthWrite)
  {
  }

  /** The answer to credentials is queued: approval exactly for a pair that is stored. */
  ghost predicate VerdictQueued(c: Conn, users: seq<User>, o: Out, cred: A.Credentials) {
    && o.Out? && o.c.phase == AuthWrite && o.c.client.AuthSt?
    && (o.c.client.verdict == A.SUCCEEDED <==> Stored(users, cred))
    && (o.c.log.gate.Matched? <==> Stored(users, cred))
    && o.c.wb.bytes == if Stored(users, cred) then [1, 0] else [1, 1]
  }

  // ---------------------------------------------------------------- the request

  lemma RequestAte(c: Conn, data: seq<byte>)
    requires c.client.RequestSt? && c.client.req == R.Parsed(R.INIT, c.log.request).st && !R.IsDone(c.client.req)
    ensures var d := AfterRequest(c, data);
            var m := c.log.request + (c.rb.bytes + data);
            && d.client == RequestSt(R.Parsed(R.INIT, m).st, c.client.status)
            && (d.client.req.state == R.Done <==> RequestComplete(m))
            && (d.client.req.state == R.UnsupportedVersion <==> WrongVersion(m, 5))
            && (d.client.req.state == R.UnsupportedAtyp <==> WrongType(m))
            && d == c.(rb := d.rb, client := d.client,
                      log := c.log.(fromClient := c.log.fromClient + data, request := d.log.request))
            && (!R.IsDone(d.client.req) ==> d.rb == Empty(c.rb.cap) && d.log.request == m)
  {
    hide R.Next;
    var q := c.rb.Put(data);
    RequestResumes(c.log.request, q.bytes);
    RequestStateIff(c.log.request + q.bytes);
    assert q.bytes[..|q.bytes|] == q.bytes;
    hide R.Parsed;
  }

  /** request_read: released for nothing or an error; the request is acted on when complete; else waiting. */
  lemma RequestReadGoes(c: Conn, t: Table, g: Globals, id: nat, io: Io)
    requires ConnInv(c, t, id, g.authOn) && c.phase == RequestRead && !c.spawned
    ensures var o := Settle(Jump(RequestReadH(c, t, g, id, io)));
            var n, m := Room(c.rb, io.recv), Message(c.log.request, c.rb, io.recv);
            && o.Out?
            && if n == 0 || WrongVersion(m, 5) || WrongType(m) then o.c.phase == Error
               else if RequestComplete(m) then
                 var d := AfterRequest(c, io.recv[..n]);
                 && Serving(d, t, id) && d.phase == RequestRead && d.log.spawns == 0
                 && ActsOn(c, d, R.Parsed(R.INIT, m).st)
                 && o == Settle(Jump(RequestProcess(d, t, g, id, io)))
               else Waits(c, t, g, o, io.recv[..n]) && o.c.log.request == m
  {
    ReadingHas(c, t, id, g.authOn);
    RequestReadKeeps(c, t, g, id, io);
    SettleKeeps(Jump(RequestReadH(c, t, g, id, io)), t, id);
    ReceivedIs(c.rb, io.recv);
    hide ConnInv, Jumped, AfterRequest, Settle, Jump, R.Parsed, Received, Kept, RequestProcess, Serving;
    var data := io.recv[..Room(c.rb, io.recv)];
    Lands(RequestReadH(c, t, g, id, io));
    RequestAte(c, data);
    var c1 := AfterRequest(c, data);
    StaysSettled(c1, t, g);
    if data != [] {
      RequestServes(c, t, id, g.authOn, data);
    }
    hide Owned;
  }

  lemma StaysSettled(c: Conn, t: Table, g: Globals)
    requires c.phase != Done && c.phase != Error
    ensures Settle(Jump(Out(c, t, g, c.phase))) == Out(c, t, g, c.phase)
  {
  }

  /** The connection with its request complete, and nothing else decided yet. */
  ghost predicate ActsOn(c: Conn, d: Conn, r: R.Req) {
    && c.client.RequestSt? && r.state == R.Done
    && d == c.(rb := d.rb, client := RequestSt(r, c.client.status),
               log := c.log.(fromClient := d.log.fromClient, request := d.log.request))
  }

  // ---------------------------------------------------------------- acting on a request

  /** The reply to a request: ten bytes, with an address of zeros. */
  function TenBytes(status: byte): seq<byte> {
    [5, status, 0, 1, 0, 0, 0, 0, 0, 0]
  }

  /** The status for a connection that failed, as section 6 of RFC 1928 numbers them. */
  function FailureByte(e: R.Errno): byte {
    match e
    case NoError => 0
    case ENETUNREACH => 3
    case EHOSTUNREACH => 4
    case ECONNREFUSED => 5
    case ETIMEDOUT => 6
    case OtherErrno => 1
  }

  lemma FailureByteIs(e: R.Errno)
    ensures R.ErrnoToSocks(e) == FailureByte(e)
  {
  }

  /** A reply is queued, the client is watched for writing, and nothing else is. */
  ghost predicate Replies(c: Conn, o: Out, id: nat, status: byte) {
    && o.Out? && o.c.live && o.c.phase == RequestWrite && o.c.client.RequestSt? && o.c.client.status == status
    && o.c.wb == Queue(RAW_BUFFER_SIZE, 0, TenBytes(status))
    && o.c.log == c.log.(replies := c.log.replies + TenBytes(status))
    && InterestOf(o.c.clientFd, o.t) == WRITE
  }

  lemma ServingHas(c: Conn, t: Table, id: nat)
    requires Serving(c, t, id)
    ensures c.live && c.wb == Empty(RAW_BUFFER_SIZE) && c.client.RequestSt? && c.originFd == -1 && Registered(c, t, id)
    ensures c.phase == RequestRead || c.phase == RequestResolv
    ensures c.client.status == R.GENERAL_FAILURE
  {
    hide R.Parsed, Spent, Owned, Admitted, ChosenRight;
  }

  lemma ErrorGoes(c: Conn, t: Table, g: Globals, id: nat, status: byte)
    requires c.live && c.wb == Empty(RAW_BUFFER_SIZE) && c.client.RequestSt? && Registered(c, t, id)
    requires c.phase == RequestRead || c.phase == RequestResolv
    ensures Replies(c, Settle(Jump(ErrorWrite(c, t, g, status))), id, status)
    ensures Settle(Jump(ErrorWrite(c, t, g, status))).c.originFd == c.originFd
  {
    hide Owned;
    InterestOnOwn(c.clientFd, c.originFd, c.references, t, id, c.clientFd, WRITE);
    hide AfterSetInterest;
    assert [] + TenBytes(status) == TenBytes(status);
  }

  /** A connection is in progress: the new descriptor is watched for it, and the client for nothing. */
  ghost predicate Connects(c: Conn, o: Out, fd: int) {
    && o.Out? && o.c.live && o.c.phase == RequestConnecting && o.c.originFd == fd
    && InterestOf(fd, o.t) == WRITE && InterestOf(o.c.clientFd, o.t) == NOOP
    && o.c.target == c.target && o.c.log == c.log && o.c.wb == c.wb && o.c.rb == c.rb
  }

  predicate Free(t: Table, fd: int) {
    !InvalidFd(fd) && fd !in t
  }

  /** The first attempt, for every answer of socket and connect. */
  lemma ConnectGoes(c: Conn, t: Table, g: Globals, id: nat, io: Io)
    requires Serving(c, t, id)
    ensures var o := Settle(Jump(RequestConnect(c, t, g, id, io)));
            match io.connect
            case NoSocket => Replies(c, o, id, 1)
            case Refused(e) => Replies(c, o, id, FailureByte(e))
            case InProgress(fd) => if Free(t, fd) then Connects(c, o, fd) else Replies(c, o, id, 1)
  {
    ServingHas(c, t, id);
    hide Serving, Owned, Frame, Registered;
    match io.connect {
      case NoSocket => ErrorGoes(c.(originFd := -1), t, g, id, 1);
      case Refused(e) =>
        FailureByteIs(e);
        ErrorGoes(c.(originFd := -1), t, g, id, FailureByte(e));
      case InProgress(fd) =>
        if Free(t, fd) {
          AwaitingRegisters(c, t, g, id, fd) by { RegisteredAlone(c, t, id); }
          LandsConnecting(Awaiting(c, t, g, id, fd));
        } else {
          AwaitingReplies(c, t, g, id, fd);
        }
    }
    assert c.(originFd := -1) == c;
    hide Settle, Jump, ErrorWrite, Awaiting, Replies;
  }

  lemma RegisteredAlone(c: Conn, t: Table, id: nat)
    requires Registered(c, t, id) && c.originFd == -1
    ensures Owned(c.clientFd, -1, c.references, t, id)
  {
    hide Owned;
  }

  lemma LandsConnecting(h: Out)
    requires h.Out? && h.ret == RequestConnecting
    ensures var o := Settle(Jump(h));
            && o.Out? && o.t == h.t && o.c.phase == RequestConnecting && o.c.live == h.c.live
            && o.c.originFd == h.c.originFd
            && o.c.clientFd == h.c.clientFd && o.c.target == h.c.target && o.c.log == h.c.log && o.c.wb == h.c.wb
            && o.c.rb == h.c.rb
  {
  }

  lemma AwaitingReplies(c: Conn, t: Table, g: Globals, id: nat, fd: int)
    requires c.live && c.wb == Empty(RAW_BUFFER_SIZE) && c.client.RequestSt? && Registered(c, t, id) && c.originFd == -1
    requires c.phase == RequestRead || c.phase == RequestResolv
    requires c.client.status == R.GENERAL_FAILURE && !Free(t, fd)
    ensures Replies(c, Settle(Jump(Awaiting(c, t, g, id, fd))), id, 1)
  {
    hide Owned, Settle, Jump, ErrorWrite, Replies, Frame;
    InterestOnOwn(c.clientFd, c.originFd, c.references, t, id, c.clientFd, NOOP);
    var u := AfterSetInterest(t, c.clientFd, NOOP).table;
    assert fd in t ==> fd in u;
    assert c.(originFd := -1) == c;
    ErrorGoes(c, u, g, id, 1);
  }

  /** An encoded request names its destination and its port. */
  lemma TargetIs(cmd: byte, rsv: byte, dst: R.Dest, port: seq<byte>, rest: seq<byte>)
    requires dst.Valid() && |port| == 2
    ensures var r := R.Parsed(R.INIT, R.Encode(cmd, rsv, dst, port) + rest).st;
            && r.state == R.Done && r.cmd == cmd && r.atyp == dst.Type()
            && (!dst.Name? ==> TargetOf(r) == Addr(dst.Type(), dst.ip, port))
  {
    R.RequestRoundTrip(cmd, rsv, dst, port, rest);
    hide R.Parsed;
    assert dst.Name? || Pad(dst.ip, R.FQDN)[..|dst.ip|] == dst.ip;
  }

  /** What becomes of a request for an address, by the answers of socket and connect. */
  ghost predicate Attempted(c: Conn, t: Table, o: Out, id: nat, connect: ConnectIo, target: Addr) {
    match connect
    case NoSocket => Replies(c, o, id, 1)
    case Refused(e) => Replies(c, o, id, FailureByte(e))
    case InProgress(fd) =>
      if Free(t, fd) then Connects(c.(target := target), o, fd) && o.c.target == target else Replies(c, o, id, 1)
  }

  /** A complete request: refused, attempted, or handed to a thread. */
  ghost predicate Acted(c: Conn, t: Table, o: Out, id: nat, io: Io, cmd: byte, dst: R.Dest, port: seq<byte>) {
    if cmd != 1 then Replies(c, o, id, 7)
    else if dst.Name? then
      if !io.memory then Replies(c, o, id, 1)
      else o.Out? && o.c.live && o.c.phase == RequestRead && o.c.spawned && o.t == t
    else Attempted(c, t, o, id, io.connect, Addr(dst.Type(), dst.ip, port))
  }

  lemma TargetServes(c: Conn, t: Table, id: nat, target: Addr)
    requires Serving(c, t, id)
    ensures Serving(c.(target := target), t, id)
  {
    hide Carries, Spent, Owned, Admitted, ChosenRight, R.Parsed;
  }

  lemma ProcessGoes(c: Conn, t: Table, g: Globals, id: nat, io: Io, cmd: byte, dst: R.Dest, port: seq<byte>)
    requires Serving(c, t, id) && c.phase == RequestRead && c.client.RequestSt?
    requires c.client.req.cmd == cmd && c.client.req.atyp == dst.Type()
    requires !dst.Name? ==> TargetOf(c.client.req) == Addr(dst.Type(), dst.ip, port)
    ensures Acted(c, t, Settle(Jump(RequestProcess(c, t, g, id, io))), id, io, cmd, dst, port)
  {
    ServingHas(c, t, id);
    var target := Addr(dst.Type(), dst.ip, port);
    TargetServes(c, t, id, target);
    hide Serving, TargetOf, Owned;
    if cmd != 1 {
      ErrorGoes(c, t, g, id, 7);
    } else if dst.Name? {
      if io.memory {
        StaysSettled(c.(spawned := true, log := c.log.(spawns := c.log.spawns + 1)), t, g);
      } else {
        ErrorGoes(c, t, g, id, 1);
      }
    } else {
      ConnectGoes(c.(target := target), t, g, id, io);
      TargetIrrelevant(c, target, Settle(Jump(RequestConnect(c.(target := target), t, g, id, io))), id);
    }
    hide Settle, Jump, ErrorWrite, RequestConnect, Replies;
  }

  lemma TargetIrrelevant(c: Conn, target: Addr, o: Out, id: nat)
    ensures forall status {:trigger Replies(c, o, id, status)}
                          {:trigger Replies(c.(target := target), o, id, status)} ::
              Replies(c.(target := target), o, id, status) ==> Replies(c, o, id, status)
  {
  }

  /** request_read on the bytes that complete a request. */
  lemma RequestActs(c: Conn, t: Table, g: Globals, id: nat, io: Io,
                    cmd: byte, rsv: byte, dst: R.Dest, port: seq<byte>, rest: seq<byte>)
    requires ConnInv(c, t, id, g.authOn) && c.phase == RequestRead && !c.spawned && dst.Valid() && |port| == 2
    requires Room(c.rb, io.recv) > 0
    requires Message(c.log.request, c.rb, io.recv) == R.Encode(cmd, rsv, dst, port) + rest
    ensures var d := AfterRequest(c, io.recv[..Room(c.rb, io.recv)]);
            && d.log.replies == c.log.replies
            && Acted(d, t, Settle(Jump(RequestReadH(c, t, g, id, io))), id, io, cmd, dst, port)
  {
    var m := Message(c.log.request, c.rb, io.recv);
    TargetIs(cmd, rsv, dst, port, rest);
    RequestStateIff(m);
    hide ConnInv, R.Parsed, Serving, Acted, AfterRequest, RequestProcess, RequestReadH, Settle, Jump, TargetOf;
    hide Message, R.Encode;
    RequestReadGoes(c, t, g, id, io);
    var d := AfterRequest(c, io.recv[..Room(c.rb, io.recv)]);
    ProcessGoes(d, t, g, id, io, cmd, dst, port);
  }

  // ---------------------------------------------------------------- the resolver has answered

  /** The block handler: a reply if there is no address, an attempt at the first one otherwise. */
  lemma BlockGoes(c: Conn, t: Table, g: Globals, id: nat, io: Io)
    requires ConnInv(c, t, id, g.authOn) && c.phase == RequestResolv
    ensures var o := OnBlock(c, t, g, id, io);
            if c.resolution == [] then Replies(Dispatched(c), o, id, 4)
            else Attempted(Dispatched(c), t, o, id, io.connect, c.resolution[0])
  {
    ResolvServes(c, t, id, g.authOn);
    var d := Dispatched(c);
    ServingHas(d, t, id);
    hide ConnInv, Serving, Owned;
    if c.resolution == [] {
      ErrorGoes(d, t, g, id, 4);
    } else {
      var e := d.(tried := 0);
      TriedServes(d, t, id, 0);
      TargetServes(e, t, id, c.resolution[0]);
      ConnectGoes(e.(target := c.resolution[0]), t, g, id, io);
      var o := Settle(Jump(RequestConnect(e.(target := c.resolution[0]), t, g, id, io)));
      TargetIrrelevant(e, c.resolution[0], o, id);
      TriedIrrelevant(d, 0, o, id);
    }
    hide Settle, Jump, ErrorWrite, RequestConnect, Replies;
  }

  lemma TriedServes(c: Conn, t: Table, id: nat, k: nat)
    requires Serving(c, t, id)
    ensures Serving(c.(tried := k), t, id)
  {
    hide Carries, Spent, Owned, Admitted, ChosenRight, R.Parsed;
  }

  lemma TriedIrrelevant(c: Conn, k: nat, o: Out, id: nat)
    ensures forall status {:trigger Replies(c, o, id, status)} {:trigger Replies(c.(tried := k), o, id, status)} ::
              Replies(c.(tried := k), o, id, status) ==> Replies(c, o, id, status)
  {
  }

  lemma ResolvServes(c: Conn, t: Table, id: nat, authOn: bool)
    requires ConnInv(c, t, id, authOn) && c.phase == RequestResolv
    ensures Serving(Dispatched(c), t, id)
  {
    hide H.Parsed, A.Parsed, R.Parsed, H.Negotiated, Owned, Streams, Admitted, ChosenRight;
    StreamsAgree(c, Dispatched(c));
    BufferOk(c);
  }

  // ---------------------------------------------------------------- sending what was said

  /** How many of the bytes that wait the kernel takes. */
  function Taken(q: Queue, willing: int): nat {
    if willing < 0 then 0 else if willing <= |q.bytes| then willing else |q.bytes|
  }

  /** Part of a reply was sent; the rest waits. */
  ghost predicate Flushing(c: Conn, t: Table, g: Globals, o: Out, willing: int) {
    && o.Out? && o.t == t && o.g == g && o.c == Flushed(c, Taken(c.wb, willing))
    && o.c.wb.bytes == c.wb.bytes[Taken(c.wb, willing)..]
  }

  lemma FlushedIs(c: Conn, willing: int)
    requires willing >= 0
    ensures var d := Flushed(c, Taken(c.wb, willing));
            && d.phase == c.phase && d.client == c.client
            && d.log.toClient == c.log.toClient + c.wb.bytes[..Taken(c.wb, willing)]
            && d.wb.bytes == c.wb.bytes[Taken(c.wb, willing)..] && (d.wb.bytes == [] <==> willing >= |c.wb.bytes|)
            && d.log.hello == c.log.hello && d.log.auth == c.log.auth && d.log.replies == c.log.replies
            && d.log.request == c.log.request && d.log.touched == c.log.touched
  {
  }

  /** The outcome of the handler, by what the kernel takes. */
  lemma HelloWriteIs(c: Conn, t: Table, g: Globals, id: nat, io: Io)
    requires c.client.HelloSt? && Registered(c, t, id) && c.phase == HelloWrite
    ensures var h := HelloWriteH(c, t, g, c.clientFd, io);
            && h.Out?
            && if io.send < 0 then h.ret == Error
               else if io.send < |c.wb.bytes| then h == Out(Flushed(c, Taken(c.wb, io.send)), t, g, HelloWrite)
               else
                 && h.ret == (if g.authOn then AuthRead else RequestRead)
                 && h.c.log.toClient == c.log.toClient + c.wb.bytes && h.c.log.authAtFlush == g.authOn
                 && h.c.log.auth == c.log.auth && h.c.log.request == c.log.request
  {
    hide Owned, Flushed;
    InterestOnOwn(c.clientFd, c.originFd, c.references, t, id, c.clientFd, READ);
    if io.send >= 0 {
      FlushedIs(c, io.send);
    }
    assert c.wb.bytes[..|c.wb.bytes|] == c.wb.bytes;
    hide AfterSetInterest;
  }

  /** hello_write: released on failure, waiting while there is more, then on by the flag. */
  lemma HelloWriteGoes(c: Conn, t: Table, g: Globals, id: nat, io: Io)
    requires ConnInv(c, t, id, g.authOn) && c.phase == HelloWrite
    ensures var o := Settle(Jump(HelloWriteH(c, t, g, c.clientFd, io)));
            && o.Out?
            && if io.send < 0 then o.c.phase == Error
               else if io.send < |c.wb.bytes| then Flushing(c, t, g, o, io.send)
               else
                 && o.c.phase == (if g.authOn then AuthRead else RequestRead)
                 && o.c.log.toClient == c.log.toClient + c.wb.bytes && o.c.log.authAtFlush == g.authOn
                 && o.c.log.auth == c.log.auth && o.c.log.request == c.log.request
  {
    HelloWriteKeeps(c, t, g, id, io);
    SettleKeeps(Jump(HelloWriteH(c, t, g, c.clientFd, io)), t, id);
    assert c.client.HelloSt? && Registered(c, t, id);
    hide ConnInv, Jumped, Settle, Jump, Kept, Registered, Flushed, HelloWriteH;
    HelloWriteIs(c, t, g, id, io);
    Lands(HelloWriteH(c, t, g, c.clientFd, io));
    if io.send >= 0 {
      FlushedIs(c, io.send);
      StaysSettled(Flushed(c, Taken(c.wb, io.send)), t, g);
    }
  }

  /** The outcome of the handler, by what the kernel takes. */
  lemma AuthWriteIs(c: Conn, t: Table, g: Globals, id: nat, io: Io)
    requires c.client.AuthSt? && Registered(c, t, id) && c.phase == AuthWrite
    ensures var h := AuthWriteH(c, t, g, c.clientFd, io);
            && h.Out?
            && if io.send < 0 then h.ret == Error
               else if io.send < |c.wb.bytes| then h == Out(Flushed(c, Taken(c.wb, io.send)), t, g, AuthWrite)
               else
                 && h.ret == (if c.client.verdict == A.SUCCEEDED then RequestRead else Error)
                 && h.c == Flushed(c, |c.wb.bytes|)
  {
    hide Owned, Flushed;
    InterestOnOwn(c.clientFd, c.originFd, c.references, t, id, c.clientFd, READ);
    if io.send >= 0 {
      FlushedIs(c, io.send);
    }
    hide AfterSetInterest;
  }

  /** auth_write: the same, and then on or to the end by the verdict. */
  lemma AuthWriteGoes(c: Conn, t: Table, g: Globals, id: nat, io: Io)
    requires ConnInv(c, t, id, g.authOn) && c.phase == AuthWrite
    ensures c.client.AuthSt?
    ensures var o := Settle(Jump(AuthWriteH(c, t, g, c.clientFd, io)));
            && o.Out?
            && if io.send < 0 then o.c.phase == Error
               else if io.send < |c.wb.bytes| then Flushing(c, t, g, o, io.send)
               else
                 && o.c.phase == (if c.client.verdict == A.SUCCEEDED then RequestRead else Error)
                 && o.c.log.toClient == c.log.toClient + c.wb.bytes
                 && o.c.log.request == c.log.request
  {
    AuthWriteKeeps(c, t, g, id, io);
    SettleKeeps(Jump(AuthWriteH(c, t, g, c.clientFd, io)), t, id);
    assert c.client.AuthSt? && Registered(c, t, id);
    hide ConnInv, Jumped, Settle, Jump, Kept, Registered, Flushed, AuthWriteH;
    AuthWriteIs(c, t, g, id, io);
    Lands(AuthWriteH(c, t, g, c.clientFd, io));
    if io.send >= 0 {
      FlushedIs(c, io.send);
      StaysSettled(Flushed(c, Taken(c.wb, io.send)), t, g);
      assert c.wb.bytes[..|c.wb.bytes|] == c.wb.bytes;
    }
  }

  /** The outcome of the handler, by what the kernel takes. */
  lemma RequestWriteIs(c: Conn, t: Table, g: Globals, io: Io)
    requires c.client.RequestSt? && c.phase == RequestWrite
    ensures var h := RequestWriteH(c, t, g, io);
            && h.Out?
            && if io.send < 0 then h.ret == Error
               else if io.send < |c.wb.bytes| then h == Out(Flushed(c, Taken(c.wb, io.send)), t, g, RequestWrite)
               else
                 && h.ret == (if c.client.status == 0 then Copy else Error)
                 && h.c.log == Flushed(c, |c.wb.bytes|).log.(copied := h.c.log.copied)
  {
    hide Flushed, AfterSetInterest;
    if io.send >= 0 {
      FlushedIs(c, io.send);
    }
  }

  /** request_write: the same, and then the relay or the end by the status. */
  lemma RequestWriteGoes(c: Conn, t: Table, g: Globals, id: nat, io: Io)
    requires ConnInv(c, t, id, g.authOn) && c.phase == RequestWrite
    ensures c.client.RequestSt?
    ensures var o := Settle(Jump(RequestWriteH(c, t, g, io)));
            && o.Out?
            && if io.send < 0 then o.c.phase == Error
               else if io.send < |c.wb.bytes| then Flushing(c, t, g, o, io.send)
               else
                 && o.c.phase == (if c.client.status == 0 then Copy else Error)
                 && o.c.log.toClient == c.log.toClient + c.wb.bytes
                 && o.c.log.touched == c.log.touched
  {
    RequestWriteKeeps(c, t, g, id, io);
    SettleKeeps(Jump(RequestWriteH(c, t, g, io)), t, id);
    assert c.client.RequestSt?;
    hide ConnInv, Jumped, Settle, Jump, Kept, Flushed, RequestWriteH;
    RequestWriteIs(c, t, g, io);
    Lands(RequestWriteH(c, t, g, io));
    if io.send >= 0 {
      FlushedIs(c, io.send);
      StaysSettled(Flushed(c, Taken(c.wb, io.send)), t, g);
      assert c.wb.bytes[..|c.wb.bytes|] == c.wb.bytes;
    }
  }

  // ---------------------------------------------------------------- the origin has answered

  /** request_connecting: success or the status of the failure, unless another address is tried. */
  lemma ConnectingGoes(c: Conn, t: Table, g: Globals, id: nat, io: Io)
    requires ConnInv(c, t, id, g.authOn) && c.phase == RequestConnecting
    ensures c.client.RequestSt? && c.origin.Connecting?
    ensures var o := Settle(Jump(ConnectingH(c, t, g, id, c.originFd, io)));
            if WillRetry(c, io) then
              RetryReaches(c, t, io) ==>
                Connects(c.(tried := c.tried + 1, target := c.resolution[c.tried + 1]), o, io.connect.fd)
                && o.c.tried == c.tried + 1
            else Replies(c, o, id, if io.sockopt.OptFails? then 1 else FailureByte(io.sockopt.e))
  {
    ConnectingFacts(c, t, id, g.authOn);
    hide ConnInv, Registered, Frame, RetryReaches, Settle, Jump, Connects, ConnectingH, Replies;
    if WillRetry(c, io) {
      if RetryReaches(c, t, io) {
        RetryConnects(c, t, g, id, io);
      }
    } else {
      ConnectingDecides(c, t, g, id, io);
    }
  }

  lemma RetryConnects(c: Conn, t: Table, g: Globals, id: nat, io: Io)
    requires Registered(c, t, id) && c.originFd != -1 && c.live && c.phase == RequestConnecting
    requires c.client.RequestSt? && c.origin.Connecting? && WillRetry(c, io) && RetryReaches(c, t, io)
    ensures var o := Settle(Jump(ConnectingH(c, t, g, id, c.originFd, io)));
            && Connects(c.(tried := c.tried + 1, target := c.resolution[c.tried + 1]), o, io.connect.fd)
            && o.c.tried == c.tried + 1
  {
    hide Owned, Frame, RetryReaches;
    RetryGets(c, t, g, id, io);
    LandsConnecting(Retry(c, t, g, id, io));
    hide Retry;
  }

  lemma ConnectingDecides(c: Conn, t: Table, g: Globals, id: nat, io: Io)
    requires c.live && c.wb == Empty(RAW_BUFFER_SIZE) && c.client.RequestSt? && c.origin.Connecting?
    requires c.phase == RequestConnecting && c.originFd != -1 && Registered(c, t, id) && c.clientFd != c.originFd
    requires c.client.req.atyp == R.DOMAIN ==> c.resolution != []
    requires !WillRetry(c, io)
    ensures Replies(c, Settle(Jump(ConnectingH(c, t, g, id, c.originFd, io))), id,
                    if io.sockopt.OptFails? then 1 else FailureByte(io.sockopt.e))
  {
    hide Connected, Replies, Settle, Jump, Registered, WillRetry, Retry;
    ConnectedReplies(c, t, g, id, 1);
    if io.sockopt.SoError? {
      FailureByteIs(io.sockopt.e);
      ConnectedReplies(c, t, g, id, FailureByte(io.sockopt.e));
    }
    assert c.(originFd := c.originFd) == c;
  }

  lemma ConnectingFacts(c: Conn, t: Table, id: nat, authOn: bool)
    requires ConnInv(c, t, id, authOn) && c.phase == RequestConnecting
    ensures c.live && c.wb == Empty(RAW_BUFFER_SIZE) && c.client.RequestSt? && c.origin.Connecting?
    ensures c.originFd != -1 && Registered(c, t, id) && c.clientFd != c.originFd
    ensures c.client.req.atyp == R.DOMAIN ==> c.resolution != []
  {
    OwnedDistinct(c.clientFd, c.originFd, c.references, t, id);
    hide H.Negotiated, H.Parsed, A.Parsed, R.Parsed, Owned, Aimed, Admitted, Spent;
  }

  lemma ConnectedReplies(c: Conn, t: Table, g: Globals, id: nat, status: byte)
    requires c.live && c.wb == Empty(RAW_BUFFER_SIZE) && c.client.RequestSt? && c.phase == RequestConnecting
    requires Registered(c, t, id) && c.originFd != -1 && c.clientFd != c.originFd
    ensures Replies(c, Settle(Jump(Connected(c, t, g, c.originFd, status))), id, status)
  {
    hide Owned, Frame;
    InterestOnOwn(c.clientFd, c.originFd, c.references, t, id, c.clientFd, WRITE);
    var u := AfterSetInterest(t, c.clientFd, WRITE).table;
    InterestOnOwn(c.clientFd, c.originFd, c.references, u, id, c.originFd, NOOP);
    hide AfterSetInterest;
    assert [] + TenBytes(status) == TenBytes(status);
  }
}
