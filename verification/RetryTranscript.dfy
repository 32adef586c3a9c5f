/**
 * What a client has been sent when its connection reaches COPY after retries that failed: one error
 * reply for each of them, in front of the success.
 */
module RetryTranscript {
  import opened Bytes
  import opened Buffers
  import opened Selector
  import opened Session
  import opened SessionInvariant
  import opened SessionProofs
  import opened SessionEngine
  import H = Hello
  import A = Auth
  import R = Request

  /** A write event: the selector table and the variables it finds, the descriptor, the answers of the kernel. */
  datatype Event = Event(t: Table, g: Globals, fd: int, io: Io)

  /** The replies of failed retries, in order. */
  ghost function Failures(statuses: seq<byte>): (r: seq<byte>)
    ensures |r| == 10 * |statuses|
  {
    if statuses == [] then [] else Failures(statuses[..|statuses| - 1]) + R.Reply(statuses[|statuses| - 1])
  }

  lemma OneMore(statuses: seq<byte>, status: byte)
    ensures Failures(statuses + [status]) == Failures(statuses) + R.Reply(status)
  {
    var all := statuses + [status];
    assert all[..|all| - 1] == statuses;
  }

  /** The states between the first attempt and the relay. */
  predicate Waiting(c: Conn) {
    c.client.RequestSt? && (c.phase == RequestConnecting || c.phase == RequestWrite)
  }

  /** The answer to the request, once there is one. */
  function Answer(c: Conn): seq<byte> {
    if c.phase == RequestWrite && c.client.RequestSt? then R.Reply(c.client.status)
    else if c.phase == Copy then R.Reply(R.SUCCEEDED) else []
  }

  /** What has been said to the client: the methods, the approval, a reply for each failed retry, the answer. */
  ghost predicate Tells(c: Conn, fails: seq<byte>) {
    && c.log.toClient + c.wb.bytes == c.log.replies
    && c.log.replies == Prelude(c.log.chosen, c.log.gate) + Failures(fails) + Answer(c)
    && (c.phase == Copy ==> c.wb.bytes == [])
  }

  ghost predicate SameTalk(c: Conn, d: Conn) {
    d.log.chosen == c.log.chosen && d.log.gate == c.log.gate
  }

  lemma Says(out: seq<byte>, q: seq<byte>, said: seq<byte>, reply: seq<byte>)
    requires out + q == said
    ensures out + (q + reply) == said + reply
  {
  }

  lemma SaysMore(before: seq<byte>, fails: seq<byte>, status: byte)
    ensures before + Failures(fails) + [] + R.Reply(status) == before + Failures(fails + [status]) + []
    ensures before + Failures(fails) + [] + R.Reply(status) == before + Failures(fails) + R.Reply(status)
  {
    OneMore(fails, status);
    assert before + Failures(fails) + [] == before + Failures(fails);
    assert before + Failures(fails) + R.Reply(status) == before + (Failures(fails) + R.Reply(status));
    hide Failures;
  }

  /** An error reply while connecting is the reply of a failed retry. */
  lemma ErrorTells(c: Conn, t: Table, g: Globals, status: byte, fails: seq<byte>)
    requires Tells(c, fails) && c.phase == RequestConnecting
    ensures var o := ErrorWrite(c, t, g, status);
            o.Out? ==> Tells(o.c, fails + [status]) && o.c.client.RequestSt? && o.c.client.status == status
                       && o.c.phase == c.phase && o.c.originFd == c.originFd && SameTalk(c, o.c)
  {
    if c.client.RequestSt? {
      Says(c.log.toClient, c.wb.bytes, c.log.replies, R.Reply(status));
      SaysMore(Prelude(c.log.chosen, c.log.gate), fails, status);
    }
    hide Failures, Prelude, R.Reply, AfterSetInterest;
  }

  /** The statuses after an attempt: one more if it left no origin. */
  ghost function Counted(o: Out, fails: seq<byte>): seq<byte>
    requires o.Out? && o.c.client.RequestSt?
  {
    if o.c.originFd == -1 then fails + [o.c.client.status] else fails
  }

  ghost predicate Tried(c: Conn, o: Out, fails: seq<byte>) {
    o.Out? ==>
      && o.c.client.RequestSt? && o.c.phase == RequestConnecting && SameTalk(c, o.c)
      && Tells(o.c, Counted(o, fails))
  }

  lemma FailedTells(c: Conn, t: Table, g: Globals, status: byte, fails: seq<byte>)
    requires Tells(c, fails) && c.phase == RequestConnecting
    ensures Tried(c, ErrorWrite(c.(originFd := -1), t, g, status), fails)
  {
    ErrorTells(c.(originFd := -1), t, g, status, fails);
    hide Failures, Prelude, ErrorWrite;
  }

  lemma AwaitingTells(c: Conn, t: Table, g: Globals, id: nat, fd: int, fails: seq<byte>)
    requires Tells(c, fails) && c.phase == RequestConnecting
    ensures Tried(c, Awaiting(c, t, g, id, fd), fails)
  {
    if c.client.RequestSt? {
      var s1 := AfterSetInterest(t, c.clientFd, NOOP);
      var s2 := AfterRegister(s1.table, fd, WRITE, id);
      FailedTells(c, s1.table, g, c.client.status, fails);
      FailedTells(c, s2.table, g, c.client.status, fails);
      assert s2.status == SUCCESS ==> fd != -1;
      RegisteredTells(c, s2.table, g, fd, fails);
    }
    hide Failures, Prelude, ErrorWrite, AfterSetInterest, AfterRegister, Tells, Tried;
  }

  lemma RegisteredTells(c: Conn, t: Table, g: Globals, fd: int, fails: seq<byte>)
    requires Tells(c, fails) && c.phase == RequestConnecting && c.client.RequestSt?
    ensures fd != -1 ==>
              Tried(c, Out(c.(originFd := fd, references := c.references + 1), t, g, RequestConnecting), fails)
  {
    hide Failures, Prelude;
  }

  lemma AttemptTells(c: Conn, t: Table, g: Globals, id: nat, io: Io, fails: seq<byte>)
    requires Tells(c, fails) && c.phase == RequestConnecting
    ensures Tried(c, RequestConnect(c, t, g, id, io), fails)
  {
    var (d, u) := DropOrigin(c, t);
    assert Tells(d, fails) && SameTalk(c, d) && d.phase == c.phase by { DropTells(c, t, fails); }
    hide Failures, Prelude, ErrorWrite, DropOrigin, Awaiting, Tells;
    match io.connect {
      case NoSocket => FailedTells(d, u, g, R.GENERAL_FAILURE, fails);
      case Refused(e) => FailedTells(d, u, g, R.ErrnoToSocks(e), fails);
      case InProgress(fd) => AwaitingTells(d, u, g, id, fd, fails);
    }
  }

  lemma DropTells(c: Conn, t: Table, fails: seq<byte>)
    requires Tells(c, fails)
    ensures var d := DropOrigin(c, t).0; Tells(d, fails) && SameTalk(c, d) && d.phase == c.phase
  {
    hide Failures, Prelude;
  }

  lemma ConnectedTells(c: Conn, t: Table, g: Globals, fd: int, status: byte, fails: seq<byte>)
    requires Tells(c, fails) && c.phase == RequestConnecting
    ensures var o := Jump(Connected(c, t, g, fd, status));
            o.Out? ==>
              && (o.c.phase == RequestWrite || o.c.phase == Error)
              && (o.c.phase == RequestWrite ==> Tells(o.c, fails) && SameTalk(c, o.c) && Waiting(o.c))
  {
    if c.client.RequestSt? {
      Says(c.log.toClient, c.wb.bytes, c.log.replies, R.Reply(status));
      SaysMore(Prelude(c.log.chosen, c.log.gate), fails, status);
    }
    hide Failures, Prelude, R.Reply, AfterSetInterest;
  }

  lemma FlushTells(c: Conn, n: nat, fails: seq<byte>)
    requires Tells(c, fails) && c.phase == RequestWrite && n <= |c.wb.bytes|
    ensures Tells(Flushed(c, n), fails)
  {
    hide Failures, Prelude, R.Reply, Answer;
    SameAnswer(c, Flushed(c, n));
    FlushMoves(c.log.toClient, c.wb.bytes, n);
    assert Flushed(c, n).wb.bytes == c.wb.bytes[n..];
  }

  lemma FlushMoves(out: seq<byte>, q: seq<byte>, n: nat)
    requires n <= |q|
    ensures (out + q[..n]) + q[n..] == out + q
  {
  }

  lemma SameAnswer(c: Conn, d: Conn)
    requires d.phase == c.phase && d.client == c.client
    ensures Answer(d) == Answer(c)
  {
  }

  lemma RepliedTells(c: Conn, t: Table, g: Globals, fails: seq<byte>)
    requires Tells(c, fails) && c.phase == RequestWrite && c.client.RequestSt? && c.wb.bytes == []
    ensures var o := Jump(Replied(c, t, g));
            o.Out? && o.c.phase != Error ==>
              Tells(o.c, fails) && SameTalk(c, o.c) && (o.c.phase != Copy ==> Waiting(o.c))
  {
    hide Failures, Prelude, R.Reply, AfterSetInterest;
  }

  lemma WrittenTells(c: Conn, t: Table, g: Globals, io: Io, fails: seq<byte>)
    requires Tells(c, fails) && c.phase == RequestWrite && c.client.RequestSt?
    ensures var o := Jump(RequestWriteH(c, t, g, io));
            o.Out? && o.c.phase != Error ==>
              Tells(o.c, fails) && SameTalk(c, o.c) && (o.c.phase != Copy ==> Waiting(o.c))
  {
    hide Tells, Replied, Sent;
    var n := Sent(c.wb, io.send);
    if n >= 0 {
      FlushTells(c, n, fails);
      if !Flushed(c, n).wb.CanRead() {
        RepliedTells(Flushed(c, n), t, g, fails);
      }
    }
  }

  // ---------------------------------------------------------------- any sequence of events

  function Happens(c: Conn, id: nat, e: Event): Out {
    OnWrite(c, e.t, e.g, id, e.fd, e.io)
  }

  /** The statuses of the failed retries after an event: one more for a retry that left no origin. */
  ghost function After(c: Conn, e: Event, o: Out, fails: seq<byte>): seq<byte> {
    if c.phase == RequestConnecting && WillRetry(c, e.io) && o.Out? && o.c.client.RequestSt?
    then Counted(o, fails) else fails
  }

  lemma ConnectingTells(c: Conn, id: nat, e: Event, fails: seq<byte>)
    requires Tells(c, fails) && c.phase == RequestConnecting
    ensures var o := Jump(ConnectingH(c, e.t, e.g, id, e.fd, e.io));
            o.Out? && o.c.phase != Error ==>
              Tells(o.c, After(c, e, o, fails)) && SameTalk(c, o.c) && Waiting(o.c)
  {
    hide Tells, Connected, RequestConnect;
    if WillRetry(c, e.io) {
      var k := c.tried + 1;
      var c0 := c.(tried := k, target := c.resolution[k]);
      assert Tells(c0, fails) by { TargetTells(c, c0, fails); }
      AttemptTells(c0, e.t, e.g, id, e.io, fails);
    } else {
      ConnectedTells(c, e.t, e.g, e.fd, R.GENERAL_FAILURE, fails);
      assert Tells(c.(originFd := e.fd), fails) by { TargetTells(c, c.(originFd := e.fd), fails); }
      ConnectedTells(c.(originFd := e.fd), e.t, e.g, e.fd, R.SUCCEEDED, fails);
      if e.io.sockopt.SoError? {
        ConnectedTells(c, e.t, e.g, e.fd, R.ErrnoToSocks(e.io.sockopt.e), fails);
      }
    }
  }

  lemma TargetTells(c: Conn, d: Conn, fails: seq<byte>)
    requires Tells(c, fails) && d.log == c.log && d.wb == c.wb && d.phase == c.phase && d.client == c.client
    ensures Tells(d, fails)
  {
    hide Failures, Prelude;
  }

  /** The states a connection may be in until it relays. */
  predicate OnItsWay(c: Conn) {
    c.phase in {RequestConnecting, RequestWrite, Copy}
  }

  lemma HappensTells(c: Conn, id: nat, e: Event, fails: seq<byte>)
    requires Tells(c, fails) && Waiting(c)
    ensures var o := Happens(c, id, e);
            o.Out? && OnItsWay(o.c) ==> Tells(o.c, After(c, e, o, fails)) && SameTalk(c, o.c)
                                        && (o.c.phase != Copy ==> Waiting(o.c))
  {
    hide Tells, ConnectingH, RequestWriteH, Counted, WillRetry, SameTalk, Jump, Settle;
    var h := WriteHandler(c, e.t, e.g, id, e.fd, e.io);
    SettledIsOver(h);
    if c.phase == RequestConnecting {
      ConnectingTells(c, id, e, fails);
    } else {
      WrittenTells(c, e.t, e.g, e.io, fails);
    }
  }

  lemma SettledIsOver(h: Out)
    ensures Settle(Jump(h)).Out? && OnItsWay(Settle(Jump(h)).c) ==>
              Settle(Jump(h)) == Jump(h) && Jump(h).c.phase != Error
  {
    hide Jump, Settle;
    JumpLands(h);
    SettleStays(Jump(h));
  }

  /** A sequence of events, each finding a table of its own, and the retries that failed among them. */
  ghost predicate Leads(c: Conn, id: nat, es: seq<Event>, fails: seq<byte>, d: Conn, failed: seq<byte>)
    decreases |es|
  {
    if es == [] then d == c && failed == fails
    else
      && Waiting(c)
      && var o := Happens(c, id, es[0]);
         o.Out? && OnItsWay(o.c) && Leads(o.c, id, es[1..], After(c, es[0], o, fails), d, failed)
  }

  lemma {:induction false} LeadsTells(c: Conn, id: nat, es: seq<Event>, fails: seq<byte>, d: Conn, failed: seq<byte>)
    requires Tells(c, fails) && OnItsWay(c) && Leads(c, id, es, fails, d, failed)
    ensures Tells(d, failed) && SameTalk(c, d)
    decreases |es|
  {
    hide Tells, Happens, After, OnItsWay, Waiting;
    if es != [] {
      HappensTells(c, id, es[0], fails);
      var o := Happens(c, id, es[0]);
      LeadsTells(o.c, id, es[1..], After(c, es[0], o, fails), d, failed);
    }
  }

  lemma ConnectingBegins(c: Conn, t: Table, id: nat, authOn: bool)
    requires ConnInv(c, t, id, authOn) && c.phase == RequestConnecting
    ensures Tells(c, [])
  {
    hide H.Negotiated, H.Parsed, A.Parsed, R.Parsed, Owned, Aimed, Admitted, Prelude;
  }

  /**
   * From a good connection that waits for its origin, through any retries, failed and successful, to the
   * relay: the client has been sent the methods, the approval, one error reply for each retry that left no
   * origin, with the status of its failure, and then the success.
   */
  lemma RevivedTranscript(c: Conn, t: Table, id: nat, authOn: bool, es: seq<Event>, d: Conn, failed: seq<byte>)
    requires ConnInv(c, t, id, authOn) && c.phase == RequestConnecting
    requires Leads(c, id, es, [], d, failed) && d.phase == Copy
    ensures d.log.toClient == [5, c.log.chosen] + (if c.log.gate.Matched? then [1, 0] else [])
                              + Failures(failed) + [5, 0, 0, 1, 0, 0, 0, 0, 0, 0]
  {
    hide ConnInv, Leads, Failures;
    ConnectingBegins(c, t, id, authOn);
    LeadsTells(c, id, es, [], d, failed);
  }
}
