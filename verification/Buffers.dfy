/**
 * The two-pointer byte buffer of buffer.c. `Queue` is its observable value: the capacity, how far
 * the read pointer is from the left end, and the unread bytes. `Buffer` is the buffer itself.
 */
module Buffers {
  import opened Bytes

  datatype Queue = Queue(cap: nat, off: nat, bytes: seq<byte>) {

    ghost predicate Valid() {
      off + |bytes| <= cap
    }

    /** What every reachable buffer satisfies: an empty buffer has its pointers back at the left end. */
    ghost predicate Canonical() {
      Valid() && (bytes == [] ==> off == 0)
    }

    function Space(): int {
      cap - off - |bytes|
    }

    predicate CanRead() {
      bytes != []
    }

    predicate CanWrite() {
      Space() > 0
    }

    function Put(bs: seq<byte>): Queue {
      this.(bytes := bytes + bs)
    }

    function Take(n: nat): Queue
      requires n <= |bytes|
    {
      if n == |bytes| then Queue(cap, 0, []) else Queue(cap, off + n, bytes[n..])
    }

    function Compact(): Queue {
      Queue(cap, 0, bytes)
    }
  }

  function Empty(cap: nat): Queue {
    Queue(cap, 0, [])
  }

  class Buffer {
    const data: array<byte>
    const limit: nat
    var read: nat
    var write: nat

    ghost predicate Ordered()
      reads this
    {
      read <= write <= limit <= data.Length
    }

    /** Besides the order of the pointers: an empty buffer has both at the left end. */
    ghost predicate Valid()
      reads this
    {
      Ordered() && (read == write ==> read == 0)
    }

    ghost function View(): (q: Queue)
      reads this, data
      requires Ordered()
      ensures Valid() ==> q.Canonical()
    {
      Queue(limit, read, data[read..write])
    }

    constructor (n: nat, raw: array<byte>)
      requires n <= raw.Length
      ensures data == raw && limit == n
      ensures Valid() && View() == Empty(n)
    {
      data, limit, read, write := raw, n, 0, 0;
    }

    method Reset()
      requires Valid()
      modifies this
      ensures Valid() && View() == Empty(limit)
    {
      read, write := 0, 0;
    }

    predicate CanWrite()
      reads this
      requires Valid()
      ensures CanWrite() <==> limit - write > 0
    {
      limit - write > 0
    }

    predicate CanRead()
      reads this
      requires Valid()
      ensures CanRead() <==> write - read > 0
    {
      write - read > 0
    }

    /** What recv does behind buffer_write_ptr: it fills memory at the write pointer and moves nothing. */
    method Fill(bs: seq<byte>)
      requires Valid() && |bs| <= limit - write
      modifies data
      ensures Valid() && View() == old(View())
      ensures data[write..write + |bs|] == bs
    {
      for i := 0 to |bs|
        invariant data[write..write + i] == bs[..i]
        invariant data[read..write] == old(data[read..write])
      {
        data[write + i] := bs[i];
        assert data[write..write + i + 1] == data[write..write + i] + [bs[i]];
      }
    }

    /** buffer_write_adv: a negative count, the error value of recv, is ignored. */
    method WriteAdv(n: int)
      requires Valid() && n <= limit - write
      modifies this
      ensures Valid() && data[..] == old(data[..])
      ensures View() == if n > -1 then old(View()).Put(data[old(write)..old(write) + n]) else old(View())
    {
      if n > -1 {
        write := write + n;
        assert data[read..write] == data[read..old(write)] + data[old(write)..write];
      }
    }

    method ReadAdv(n: int)
      requires Valid() && n <= write - read
      modifies this, data
      ensures Valid()
      ensures View() == if n > -1 then old(View()).Take(n) else old(View())
    {
      if n > -1 {
        assert data[read + n..write] == data[read..write][n..];
        read := read + n;
        if read == write {
          Compact();
        }
      }
    }

    /** buffer_read: an empty buffer yields 0 and stays as it was. */
    method Read() returns (c: byte)
      requires Valid()
      modifies this, data
      ensures Valid()
      ensures if old(CanRead()) then c == old(View()).bytes[0] && View() == old(View()).Take(1)
              else c == 0 && View() == old(View())
    {
      if CanRead() {
        c := data[read];
        ReadAdv(1);
      } else {
        c := 0;
      }
    }

    /** buffer_write: a byte for which there is no room is dropped. */
    method Write(c: byte)
      requires Valid()
      modifies this, data
      ensures Valid()
      ensures View() == if old(CanWrite()) then old(View()).Put([c]) else old(View())
    {
      if CanWrite() {
        data[write] := c;
        assert data[read..write] == old(data[read..write]);
        WriteAdv(1);
      }
    }

    /** memmove to the left end; it may overlap itself, and goes from low to high addresses. */
    method MoveDown(n: nat)
      requires 0 < read && read + n <= data.Length
      modifies data
      ensures data[..n] == old(data[read..read + n])
    {
      for i := 0 to n
        invariant data[..i] == old(data[read..read + i])
        invariant data[read + i..read + n] == old(data[read + i..read + n])
      {
        ghost var rest := data[read + i..read + n];
        assert data[read + i] == rest[0] == old(data[read + i]);
        data[i] := data[read + i];
        assert data[..i + 1] == data[..i] + [data[i]];
        assert data[read + i + 1..read + n] == rest[1..];
      }
    }

    /** buffer_compact */
    method Compact()
      requires Ordered()
      modifies this, data
      ensures Valid() && View() == old(View()).Compact()
      ensures View().Space() == old(View().Space()) + old(read)
    {
      if read == 0 {
      } else if read == write {
        read, write := 0, 0;
      } else {
        var n := write - read;
        MoveDown(n);
        read, write := 0, n;
      }
    }
  }

  /** The operations a client may perform, within the contracts of the two `adv` calls. */
  datatype Op = Give(bs: seq<byte>) | Get(n: nat) | Squeeze

  ghost predicate Allowed(q: Queue, op: Op) {
    match op
    case Give(bs) => |bs| <= q.Space()
    case Get(n) => n <= |q.bytes|
    case Squeeze => true
  }

  function Apply(q: Queue, op: Op): Queue {
    match op
    case Give(bs) => q.Put(bs)
    case Get(n) => if n <= |q.bytes| then q.Take(n) else q
    case Squeeze => q.Compact()
  }

  function Final(q: Queue, ops: seq<Op>): Queue
    decreases ops
  {
    if ops == [] then q else Final(Apply(q, ops[0]), ops[1..])
  }

  ghost predicate AllAllowed(q: Queue, ops: seq<Op>)
    decreases ops
  {
    ops == [] || (Allowed(q, ops[0]) && AllAllowed(Apply(q, ops[0]), ops[1..]))
  }

  /** Everything given, in order. */
  ghost function Given(ops: seq<Op>): seq<byte> {
    if ops == [] then [] else (if ops[0].Give? then ops[0].bs else []) + Given(ops[1..])
  }

  /** Everything read out, in order. */
  ghost function Got(q: Queue, ops: seq<Op>): seq<byte>
    requires AllAllowed(q, ops)
    decreases ops
  {
    if ops == [] then []
    else (if ops[0].Get? then q.bytes[..ops[0].n] else []) + Got(Apply(q, ops[0]), ops[1..])
  }

  lemma FifoStep(q: Queue, op: Op)
    requires q.Canonical() && Allowed(q, op)
    ensures var out := if op.Get? then q.bytes[..op.n] else [];
            var inn := if op.Give? then op.bs else [];
            out + Apply(q, op).bytes == q.bytes + inn
    ensures Apply(q, op).Canonical() && Apply(q, op).cap == q.cap
    ensures op.Get? ==> op.n <= |q.bytes|
  {
  }

  /**
   * A bounded FIFO: over any allowed sequence the bytes read out followed by those still held are
   * the bytes held at first followed by those given, and the buffer stays canonical.
   */
  lemma {:induction false} FifoRefinement(q: Queue, ops: seq<Op>)
    requires q.Canonical() && AllAllowed(q, ops)
    ensures Final(q, ops).Canonical() && Final(q, ops).cap == q.cap
    ensures Got(q, ops) + Final(q, ops).bytes == q.bytes + Given(ops)
    decreases ops
  {
    if ops != [] {
      hide Apply, Allowed;
      var op, q1, rest := ops[0], Apply(q, ops[0]), ops[1..];
      FifoStep(q, op);
      FifoRefinement(q1, rest);
      var out := if op.Get? then q.bytes[..op.n] else [];
      var inn := if op.Give? then op.bs else [];
      calc {
        Got(q, ops) + Final(q, ops).bytes;
        (out + Got(q1, rest)) + Final(q1, rest).bytes;
        out + (Got(q1, rest) + Final(q1, rest).bytes);
        out + (q1.bytes + Given(rest));
        (out + q1.bytes) + Given(rest);
        (q.bytes + inn) + Given(rest);
        q.bytes + (inn + Given(rest));
      }
    }
  }
}
