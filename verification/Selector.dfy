/**
 * The I/O multiplexer of selector.c. `Table` is what it means: which descriptors are registered,
 * with which interest and attachment. `FdSelector` is the growable slot array with its three
 * redundant indexes (two descriptor sets and the largest descriptor in use).
 */
module Selector {
  import opened Bytes

  const FD_SETSIZE := 1024
  const FD_UNUSED := -1

  datatype Item = Item(interest: Interest, data: nat)

  type Table = map<int, Item>

  datatype Status = SUCCESS | ENOMEM | MAXFD | IARGS | FDINUSE

  datatype Outcome = Outcome(table: Table, status: Status)

  predicate InvalidFd(fd: int) {
    fd < 0 || fd >= FD_SETSIZE
  }

  function AfterRegister(t: Table, fd: int, interest: Interest, data: nat): Outcome {
    if InvalidFd(fd) then Outcome(t, IARGS)
    else if fd in t then Outcome(t, FDINUSE)
    else Outcome(t[fd := Item(interest, data)], SUCCESS)
  }

  function AfterUnregister(t: Table, fd: int): Outcome {
    if InvalidFd(fd) || fd !in t then Outcome(t, IARGS)
    else Outcome(t - {fd}, SUCCESS)
  }

  function AfterSetInterest(t: Table, fd: int, i: Interest): Outcome {
    if InvalidFd(fd) || fd !in t then Outcome(t, IARGS)
    else Outcome(t[fd := t[fd].(interest := i)], SUCCESS)
  }

  ghost function Pow2(k: nat): (p: nat)
    ensures p > k
  {
    if k == 0 then 1 else 2 * Pow2(k - 1)
  }

  /** `p` is the smallest power of two above `n`. */
  ghost predicate SmallestPowerAbove(p: nat, n: nat) {
    (exists k: nat :: p == Pow2(k)) && p > n && forall k: nat :: Pow2(k) > n ==> p <= Pow2(k)
  }

  lemma Pow2Monotone(a: nat, b: nat)
    requires a <= b
    ensures Pow2(a) <= Pow2(b)
  {
    if a < b {
      Pow2Monotone(a, b - 1);
    }
  }

  lemma SmallestByHalving(k: nat, n: nat)
    requires Pow2(k) > n && (k == 0 || Pow2(k - 1) <= n)
    ensures SmallestPowerAbove(Pow2(k), n)
  {
    forall j: nat | Pow2(j) > n ensures Pow2(k) <= Pow2(j) {
      if j < k {
        Pow2Monotone(j, k - 1);
        assert false;
      }
      Pow2Monotone(k, j);
    }
  }

  /** `tmp` is `n` shifted right as often as `p` was doubled. */
  ghost predicate Shifted(n: nat, tmp: nat, p: nat) {
    tmp * p <= n < (tmp + 1) * p
  }

  lemma ShiftOnce(n: nat, tmp: nat, p: nat)
    requires Shifted(n, tmp, p) && tmp != 0
    ensures Shifted(n, tmp / 2, 2 * p) && p <= n
  {
    var h := tmp / 2;
    assert h * (2 * p) == (2 * h) * p;
    assert (h + 1) * (2 * p) == (2 * h + 2) * p;
    assert tmp * p == (tmp - 1) * p + p && (tmp - 1) * p >= 0;
    if tmp == 2 * h {
      assert (2 * h + 2) * p == (tmp + 1) * p + p;
    } else {
      assert tmp * p == (2 * h) * p + p;
    }
  }

  /** The smallest power of two above `n`, capped at FD_SETSIZE, plus one: always more than `n`. */
  method NextCapacity(n: nat) returns (r: nat)
    requires n <= FD_SETSIZE
    ensures exists p: nat :: SmallestPowerAbove(p, n) && r == (if p > FD_SETSIZE then FD_SETSIZE else p) + 1
    ensures n < r <= FD_SETSIZE + 1
  {
    var bits: nat, tmp: nat := 0, n;
    while tmp != 0
      invariant Shifted(n, tmp, Pow2(bits))
      invariant bits > 0 ==> Pow2(bits - 1) <= n
      decreases tmp
    {
      ShiftOnce(n, tmp, Pow2(bits));
      tmp := tmp / 2;
      bits := bits + 1;
    }
    SmallestByHalving(bits, n);
    tmp := Shift(bits);
    assert SmallestPowerAbove(tmp, n);
    if tmp > FD_SETSIZE {
      tmp := FD_SETSIZE;
    }
    return tmp + 1;
  }

  /** 1UL << bits */
  method Shift(bits: nat) returns (p: nat)
    ensures p == Pow2(bits)
  {
    p := 1;
    for i := 0 to bits
      invariant p == Pow2(i)
    {
      p := 2 * p;
    }
  }

  /** struct item: `fd` is FD_UNUSED in a free slot. */
  datatype Slot = Slot(fd: int, interest: Interest, data: nat)

  const FREE := Slot(FD_UNUSED, NOOP, 0)

  ghost predicate Used(slots: seq<Slot>, i: int) {
    0 <= i < |slots| && slots[i].fd != FD_UNUSED
  }

  /** A used slot holds its own index, and the three indexes summarise the slots. */
  ghost predicate Agree(slots: seq<Slot>, maxFd: int, r: set<int>, w: set<int>) {
    && (forall i :: Used(slots, i) ==> slots[i].fd == i < FD_SETSIZE)
    && (forall i :: i in r <==> Used(slots, i) && slots[i].interest.read)
    && (forall i :: i in w <==> Used(slots, i) && slots[i].interest.write)
    && IsMaxFd(slots, maxFd)
  }

  /** The largest descriptor in use, or 0. */
  ghost predicate IsMaxFd(slots: seq<Slot>, maxFd: int) {
    && 0 <= maxFd
    && (forall i :: Used(slots, i) ==> i <= maxFd)
    && (maxFd != 0 ==> Used(slots, maxFd))
  }

  ghost function TableOf(slots: seq<Slot>): Table {
    map i: int | 0 <= i < |slots| && Used(slots, i) :: Item(slots[i].interest, slots[i].data)
  }

  /** What items_update_fdset_for_fd makes of one descriptor set. */
  function Marked(s: set<int>, fd: int, on: bool): set<int> {
    if on then s + {fd} else s - {fd}
  }

  lemma AgreeAfterStore(slots: seq<Slot>, maxFd: int, r: set<int>, w: set<int>, s: Slot)
    requires Agree(slots, maxFd, r, w) && 0 <= s.fd < |slots| && s.fd < FD_SETSIZE
    ensures Agree(slots[s.fd := s], if s.fd > maxFd then s.fd else maxFd,
                  Marked(r, s.fd, s.interest.read), Marked(w, s.fd, s.interest.write))
    ensures TableOf(slots[s.fd := s]) == TableOf(slots)[s.fd := Item(s.interest, s.data)]
  {
    var next := slots[s.fd := s];
    assert forall i :: Used(next, i) <==> i == s.fd || Used(slots, i);
  }

  lemma AgreeAfterFree(slots: seq<Slot>, maxFd: int, r: set<int>, w: set<int>, fd: int, max: int)
    requires Agree(slots, maxFd, r, w) && Used(slots, fd)
    requires IsMaxFd(slots[fd := FREE], max)
    ensures Agree(slots[fd := FREE], max, r - {fd}, w - {fd})
    ensures TableOf(slots[fd := FREE]) == TableOf(slots) - {fd}
  {
    var next := slots[fd := FREE];
    assert forall i :: Used(next, i) <==> i != fd && Used(slots, i);
  }

  /** More free slots change nothing. */
  lemma AgreeGrown(slots: seq<Slot>, grown: seq<Slot>, maxFd: int, r: set<int>, w: set<int>)
    requires Agree(slots, maxFd, r, w) && |slots| <= |grown|
    requires forall i :: 0 <= i < |grown| ==> grown[i] == if i < |slots| then slots[i] else FREE
    ensures Agree(grown, maxFd, r, w) && TableOf(grown) == TableOf(slots)
  {
    forall i ensures Used(grown, i) <==> Used(slots, i) {
    }
    assert forall i :: Used(slots, i) ==> grown[i] == slots[i];
  }

  class FdSelector {
    var fds: array<Slot>
    var maxFd: int
    var masterR: set<int>
    var masterW: set<int>

    ghost predicate Valid()
      reads this, fds
    {
      Agree(fds[..], maxFd, masterR, masterW)
    }

    ghost function View(): (t: Table)
      reads this, fds
    {
      TableOf(fds[..])
    }

    /** selector_new: the table is allocated at once; growing past FD_SETSIZE elements is refused there. */
    constructor (initial: nat)
      requires initial <= FD_SETSIZE
      ensures Valid() && fresh(fds) && View() == map[]
      ensures initial < fds.Length
      ensures initial == FD_SETSIZE ==> forall fd :: !InvalidFd(fd) ==> fd < fds.Length
    {
      var size := NextCapacity(initial);
      fds := new Slot[size](_ => FREE);
      maxFd := 0;
      masterR, masterW := {}, {};
    }

    /** ensure_capacity. `memory` tells whether the allocator grants the request. */
    method EnsureCapacity(n: nat, memory: bool) returns (s: Status)
      requires Valid()
      modifies this`fds
      ensures Valid() && View() == old(View())
      ensures s == SUCCESS ==> n < fds.Length
      ensures s == if n < old(fds.Length) then SUCCESS else if n > FD_SETSIZE then MAXFD
                   else if memory then SUCCESS else ENOMEM
      ensures fds == old(fds) || fresh(fds)
      ensures old(fds.Length) <= fds.Length
      ensures fds[..] == old(fds[..]) + seq(fds.Length - old(fds.Length), _ => FREE)
    {
      if n < fds.Length {
        return SUCCESS;
      } else if n > FD_SETSIZE {
        return MAXFD;
      }
      var size := NextCapacity(n);
      if !memory {
        return ENOMEM;
      }
      var before, grown := fds, new Slot[size](_ => FREE);
      forall i | 0 <= i < before.Length {
        grown[i] := before[i];
      }
      assert before[..] == old(fds[..]);
      assert forall i :: 0 <= i < grown.Length ==> grown[i] == if i < before.Length then before[i] else FREE;
      fds := grown;
      assert Agree(before[..], maxFd, masterR, masterW);
      AgreeGrown(before[..], fds[..], maxFd, masterR, masterW);
      return SUCCESS;
    }

    /** items_max_fd scans no further than the maximum recorded before the change. */
    method ItemsMaxFd() returns (max: int)
      requires 0 <= maxFd < fds.Length
      requires forall i :: Used(fds[..], i) ==> fds[i].fd == i <= maxFd
      ensures IsMaxFd(fds[..], max)
    {
      max := 0;
      for i := 0 to maxFd + 1
        invariant 0 <= max && (max != 0 ==> Used(fds[..], max))
        invariant forall k :: Used(fds[..], k) && k < i ==> k <= max
      {
        if fds[i].fd != FD_UNUSED {
          assert Used(fds[..], i);
          if fds[i].fd > max {
            max := fds[i].fd;
          }
        }
      }
    }

    /** items_update_fdset_for_fd */
    method UpdateFdSets(i: int)
      requires 0 <= i < fds.Length && fds[i].fd == i
      modifies this`masterR, this`masterW
      ensures masterR == Marked(old(masterR), i, fds[i].interest.read)
      ensures masterW == Marked(old(masterW), i, fds[i].interest.write)
    {
      masterR, masterW := masterR - {i}, masterW - {i};
      if fds[i].interest.read {
        masterR := masterR + {i};
      }
      if fds[i].interest.write {
        masterW := masterW + {i};
      }
    }

    method Register(fd: int, handler: bool, interest: Interest, data: nat, memory: bool) returns (s: Status)
      requires Valid()
      modifies this, fds
      ensures Valid() && (fds == old(fds) || fresh(fds)) && old(fds.Length) <= fds.Length
      ensures if !handler then s == IARGS && View() == old(View())
              else if s == ENOMEM then !memory && View() == old(View())
              else Outcome(View(), s) == AfterRegister(old(View()), fd, interest, data)
    {
      if InvalidFd(fd) || !handler {
        return IARGS;
      }
      if fd >= fds.Length {
        s := EnsureCapacity(fd, memory);
        if s != SUCCESS {
          return;
        }
      }
      assert fd in View() <==> Used(fds[..], fd);
      if fds[fd].fd != FD_UNUSED {
        return FDINUSE;
      }
      AgreeAfterStore(fds[..], maxFd, masterR, masterW, Slot(fd, interest, data));
      label L:
      fds[fd] := Slot(fd, interest, data);
      assert fds[..] == old@L(fds[..])[fd := Slot(fd, interest, data)];
      if fd > maxFd {
        maxFd := fd;
      }
      UpdateFdSets(fd);
      return SUCCESS;
    }

    /** selector_unregister_fd, up to the close callback, which receives `closed`. */
    method Unregister(fd: int) returns (s: Status, closed: nat)
      requires Valid() && (InvalidFd(fd) || fd < fds.Length)
      modifies this, fds
      ensures Valid() && fds == old(fds)
      ensures Outcome(View(), s) == AfterUnregister(old(View()), fd)
      ensures s == SUCCESS ==> closed == old(View())[fd].data
    {
      closed := 0;
      if InvalidFd(fd) || fds[fd].fd == FD_UNUSED {
        s := IARGS;
        return;
      }
      assert Used(fds[..], fd);
      closed := fds[fd].data;
      fds[fd] := fds[fd].(interest := NOOP);
      UpdateFdSets(fd);
      fds[fd] := FREE;
      assert fds[..] == old(fds[..])[fd := FREE];
      assert forall i :: Used(fds[..], i) ==> Used(old(fds[..]), i) && fds[i] == old(fds[i]);
      var max := ItemsMaxFd();
      maxFd := max;
      AgreeAfterFree(old(fds[..]), old(maxFd), old(masterR), old(masterW), fd, max);
      s := SUCCESS;
    }

    method SetInterest(fd: int, interest: Interest) returns (s: Status)
      requires Valid() && (InvalidFd(fd) || fd < fds.Length)
      modifies this, fds
      ensures Valid() && fds == old(fds)
      ensures Outcome(View(), s) == AfterSetInterest(old(View()), fd, interest)
    {
      if InvalidFd(fd) || fds[fd].fd == FD_UNUSED {
        return IARGS;
      }
      assert Used(fds[..], fd);
      AgreeAfterStore(fds[..], maxFd, masterR, masterW, fds[fd].(interest := interest));
      fds[fd] := fds[fd].(interest := interest);
      assert fds[..] == old(fds[..])[fd := old(fds[fd]).(interest := interest)];
      UpdateFdSets(fd);
      return SUCCESS;
    }

    /** The sweep of selector_destroy: every registered descriptor is closed once, in ascending order. */
    method UnregisterAll() returns (closed: seq<(int, nat)>)
      requires Valid()
      modifies this, fds
      ensures Valid() && View() == map[]
      ensures ClosesAll(old(View()), closed, old(fds.Length))
    {
      closed := [];
      ghost var t := View();
      for i := 0 to fds.Length
        invariant Valid() && fds == old(fds)
        invariant View() == map fd | fd in t && i <= fd :: t[fd]
        invariant ClosesAll(t, closed, i)
      {
        var one := CloseSlot(i);
        SweepStep(t, i);
        if one != [] {
          ClosesOneMore(t, closed, i);
          closed := closed + one;
        }
      }
    }

    /** One turn of that sweep. */
    method CloseSlot(i: nat) returns (closed: seq<(int, nat)>)
      requires Valid() && i < fds.Length
      modifies this, fds
      ensures Valid() && fds == old(fds) && View() == old(View()) - {i}
      ensures closed == if i in old(View()) then [(i, old(View())[i].data)] else []
    {
      closed := [];
      assert i in View() <==> Used(fds[..], i);
      if fds[i].fd != FD_UNUSED {
        var s, d := Unregister(i);
        closed := [(i, d)];
      }
    }

    /** The three indexes, read off the table they summarise. */
    lemma IndexesAgree()
      requires Valid()
      ensures masterR == set fd | fd in View() && View()[fd].interest.read
      ensures masterW == set fd | fd in View() && View()[fd].interest.write
      ensures (maxFd in View() || maxFd == 0) && forall fd :: fd in View() ==> 0 <= fd <= maxFd
    {
      assert maxFd != 0 ==> Used(fds[..], maxFd) && maxFd in View();
    }
  }

  lemma SweepStep(t: Table, i: int)
    ensures (map fd | fd in t && i <= fd :: t[fd]) - {i} == map fd | fd in t && i + 1 <= fd :: t[fd]
  {
  }

  /** `closed` lists, in ascending order and each once, exactly the descriptors of `t` below `n`. */
  ghost predicate ClosesAll(t: Table, closed: seq<(int, nat)>, n: int) {
    && (forall k :: 0 <= k < |closed| ==>
          closed[k].0 < n && closed[k].0 in t && closed[k].1 == t[closed[k].0].data)
    && (forall j, k :: 0 <= j < k < |closed| ==> closed[j].0 < closed[k].0)
    && (forall fd :: fd in t && fd < n ==> (fd, t[fd].data) in closed)
  }

  lemma ClosesOneMore(t: Table, closed: seq<(int, nat)>, fd: int)
    requires ClosesAll(t, closed, fd) && fd in t
    ensures ClosesAll(t, closed + [(fd, t[fd].data)], fd + 1)
  {
    var next := closed + [(fd, t[fd].data)];
    assert next[|closed|] == (fd, t[fd].data);
    forall g | g in t && g < fd + 1 ensures (g, t[g].data) in next {
      if g != fd {
        assert (g, t[g].data) in closed;
      }
    }
  }
}
