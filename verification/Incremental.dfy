/**
 * Byte-at-a-time machines. Every parser of the server is driven by the same loop: take a byte from
 * the buffer, feed it, stop as soon as the machine is done (hello.c, auth.c, request.c, monitor.c).
 */
module Incremental {
  import opened Bytes
  import opened Buffers

  /** Where a machine stands, and how many bytes it took to get there. */
  datatype Parse<S> = Parse(st: S, eaten: nat)

  function Consume<S>(feed: (S, byte) -> S, done: S -> bool, s: S, bs: seq<byte>): (p: Parse<S>)
    ensures p.eaten <= |bs|
    ensures !done(p.st) ==> p.eaten == |bs|
    decreases |bs|
  {
    if bs == [] then
      Parse(s, 0)
    else
      var s1 := feed(s, bs[0]);
      if done(s1) then
        Parse(s1, 1)
      else
        var p := Consume(feed, done, s1, bs[1..]);
        Parse(p.st, 1 + p.eaten)
  }

  /** Feeding in two pieces is feeding the whole, unless the first piece already completes the message. */
  lemma {:induction false} ConsumeSplit<S>(feed: (S, byte) -> S, done: S -> bool, s: S, a: seq<byte>, b: seq<byte>)
    requires a == [] ==> !done(s)
    ensures var p := Consume(feed, done, s, a);
            Consume(feed, done, s, a + b) ==
            if done(p.st) then p
            else Parse(Consume(feed, done, p.st, b).st, |a| + Consume(feed, done, p.st, b).eaten)
    decreases |a|
  {
    if a == [] {
      assert a + b == b;
    } else {
      assert (a + b)[0] == a[0] && (a + b)[1..] == a[1..] + b;
      var s1 := feed(s, a[0]);
      if !done(s1) {
        ConsumeSplit(feed, done, s1, a[1..], b);
      }
    }
  }

  /** The machine stands where it would had it been given only the bytes it ate. */
  lemma {:induction false} ConsumePrefix<S>(feed: (S, byte) -> S, done: S -> bool, s: S, bs: seq<byte>)
    ensures var p := Consume(feed, done, s, bs); Consume(feed, done, s, bs[..p.eaten]) == p
    decreases |bs|
  {
    if bs != [] && !done(feed(s, bs[0])) {
      var p := Consume(feed, done, s, bs);
      ConsumePrefix(feed, done, feed(s, bs[0]), bs[1..]);
      assert bs[..p.eaten][1..] == bs[1..][..p.eaten - 1];
    }
  }

  /** Going on with `bs` after `a` was eaten is one parse of `a` followed by what is eaten of `bs`. */
  lemma ConsumeMore<S>(feed: (S, byte) -> S, done: S -> bool, s: S, a: seq<byte>, bs: seq<byte>)
    requires var st := Consume(feed, done, s, a).st; !done(s) && !done(st)
    ensures var p := Consume(feed, done, Consume(feed, done, s, a).st, bs);
            Consume(feed, done, s, a + bs[..p.eaten]) == Parse(p.st, |a| + p.eaten)
  {
    var st := Consume(feed, done, s, a).st;
    var p := Consume(feed, done, st, bs);
    ConsumeSplit(feed, done, s, a, bs[..p.eaten]);
    ConsumePrefix(feed, done, st, bs);
  }

  ghost function Concat(chunks: seq<seq<byte>>): seq<byte> {
    if chunks == [] then [] else chunks[0] + Concat(chunks[1..])
  }

  /** A machine, its buffer, and what the peer has sent that was not received yet. */
  datatype Reader<S> = Reader(st: S, q: Queue, pending: seq<seq<byte>>)

  /** The read handlers, event after event: receive one chunk into the buffer, then consume. */
  ghost function Receive<S>(feed: (S, byte) -> S, done: S -> bool, r: Reader<S>): Reader<S>
    decreases |r.pending|
  {
    if r.pending == [] || done(r.st) then r
    else
      var q := r.q.Put(r.pending[0]);
      var p := Consume(feed, done, r.st, q.bytes);
      Receive(feed, done, Reader(p.st, q.Take(p.eaten), r.pending[1..]))
  }

  /** recv never returns more than the free space it was offered. */
  ghost predicate Fits<S>(r: Reader<S>) {
    && (r.pending != [] ==> |r.pending[0]| <= r.q.Space())
    && forall i :: 1 <= i < |r.pending| ==> |r.pending[i]| <= r.q.cap
  }

  /**
   * How TCP splits the stream does not matter: whatever the chunks, and whatever an earlier message
   * left in the buffer, the machine ends as in a one-shot parse, and the bytes it has not eaten are
   * still there in order. A machine that is not done leaves an empty buffer of full capacity.
   */
  lemma {:induction false} ChunkingIrrelevant<S>(feed: (S, byte) -> S, done: S -> bool, r: Reader<S>)
    requires r.q.Canonical() && !done(r.st) && r.pending != [] && Fits(r)
    ensures var stream := r.q.bytes + Concat(r.pending);
            var whole := Consume(feed, done, r.st, stream);
            var end := Receive(feed, done, r);
            && end.st == whole.st
            && end.q.bytes + Concat(end.pending) == stream[whole.eaten..]
            && end.q.Canonical() && end.q.cap == r.q.cap
            && (!done(end.st) ==> end.q == Empty(r.q.cap) && end.pending == [])
    decreases |r.pending|
  {
    var q := r.q.Put(r.pending[0]);
    var rest := Concat(r.pending[1..]);
    var stream := r.q.bytes + Concat(r.pending);
    assert stream == q.bytes + rest;
    var p := Consume(feed, done, r.st, q.bytes);
    var next := Reader(p.st, q.Take(p.eaten), r.pending[1..]);
    ConsumeSplit(feed, done, r.st, q.bytes, rest);
    if done(p.st) {
      assert next.q.bytes == q.bytes[p.eaten..];
      assert Receive(feed, done, next) == next;
      assert stream[p.eaten..] == q.bytes[p.eaten..] + rest;
    } else {
      assert next.q == Empty(r.q.cap);
      if next.pending == [] {
        assert rest == [];
      } else {
        ChunkingIrrelevant(feed, done, next);
        assert next.q.bytes + rest == rest;
        var whole := Consume(feed, done, p.st, rest);
        assert stream[|q.bytes| + whole.eaten..] == rest[whole.eaten..];
      }
    }
  }
}
