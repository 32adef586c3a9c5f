/** The end of the process: selector_destroy closes every descriptor, in any order, and the objects go with them. */
module Teardown {
  import opened Bytes
  import opened Selector
  import opened Session
  import opened SessionInvariant
  import opened World
  import opened WorldInvariant
  import opened Guarantees

  ghost function Fds(t: Table, id: nat): set<int> {
    set fd | fd in t && t[fd].data == id
  }

  /** selector_unregister_fd with its close callback; a callback on a released object would be fatal. */
  function CloseOne(w: World, fd: int): Result {
    if fd !in w.t then Ok(w)
    else if w.t[fd].data == 0 then Ok(w.(t := w.t - {fd}))
    else
      var k := Attached(w.t, fd);
      if !IsLive(w, k) then Crash else
      var c := Destroy(w.conns[k]);
      var p := if c.live then Pool(w.pool, w.poolSize) else Release(Pool(w.pool, w.poolSize), c.obj);
      Ok(w.(conns := w.conns[k := c], t := w.t - {fd}, pool := p.objs, poolSize := p.size))
  }

  function CloseAll(w: World, fds: seq<int>): Result
    decreases |fds|
  {
    if fds == [] then Ok(w)
    else match CloseOne(w, fds[0])
      case Crash => Crash
      case Ok(w1) => CloseAll(w1, fds[1..])
  }

  /** What survives while the descriptors go one by one: counts, ownership, separation of objects. */
  ghost predicate Closing(w: World) {
    && |w.workers| == |w.conns|
    && (forall k :: 0 <= k < |w.conns| && w.conns[k].live ==>
          Fds(w.t, k + 1) != {} && |Fds(w.t, k + 1)| == w.conns[k].references)
    && TableOk(w.conns, w.t) && ObjectsOk(w.conns, w.pool, w.poolSize)
  }

  lemma FdsAfterClose(t: Table, fd: int, id: nat)
    requires fd in t
    ensures Fds(t - {fd}, id) == Fds(t, id) - {fd}
    ensures t[fd].data != id ==> Fds(t - {fd}, id) == Fds(t, id)
  {
  }

  /** The last reference is the last descriptor. */
  lemma LastOne(t: Table, fd: int, id: nat, references: nat)
    requires fd in t && t[fd].data == id && |Fds(t, id)| == references
    ensures references >= 1
    ensures references == 1 <==> Fds(t - {fd}, id) == {}
    ensures |Fds(t - {fd}, id)| == references - 1
  {
    FdsAfterClose(t, fd, id);
    assert fd in Fds(t, id);
    var rest := Fds(t, id) - {fd};
    assert |rest| == references - 1;
    assert |rest| == 0 <==> rest == {};
  }

  lemma CountsAfterClose(w: World, fd: int, k: nat, c: Conn)
    requires Closing(w) && fd in w.t && w.t[fd].data == k + 1 && k < |w.conns| && w.conns[k].live
    requires c == Destroy(w.conns[k])
    ensures var conns, t := w.conns[k := c], w.t - {fd};
            && (forall j :: 0 <= j < |conns| && conns[j].live ==>
                  Fds(t, j + 1) != {} && |Fds(t, j + 1)| == conns[j].references)
            && (!c.live <==> Fds(t, k + 1) == {})
  {
    LastOne(w.t, fd, k + 1, w.conns[k].references);
    forall id: nat | id != k + 1 ensures Fds(w.t - {fd}, id) == Fds(w.t, id) {
      FdsAfterClose(w.t, fd, id);
    }
    hide Fds, TableOk, ObjectsOk;
  }

  lemma TableAfterClose(conns: seq<Conn>, t: Table, fd: int, k: nat, c: Conn)
    requires TableOk(conns, t) && k < |conns| && (!c.live ==> Fds(t - {fd}, k + 1) == {})
    ensures TableOk(conns[k := c], t - {fd})
  {
    forall f | f in t - {fd}
      ensures t[f].data == 0 || (t[f].data <= |conns| && conns[k := c][t[f].data - 1].live)
    {
      if t[f].data == k + 1 {
        assert f in Fds(t - {fd}, k + 1);
      }
    }
  }

  lemma ObjectsAfterClose(conns: seq<Conn>, pool: seq<nat>, size: nat, k: nat, c: Conn)
    requires ObjectsOk(conns, pool, size) && k < |conns| && conns[k].live && c.obj == conns[k].obj
    ensures var p := if c.live then Pool(pool, size) else Release(Pool(pool, size), c.obj);
            ObjectsOk(conns[k := c], p.objs, p.size)
  {
  }

  lemma CloseOneKeeps(w: World, fd: int)
    requires Closing(w)
    ensures var r := CloseOne(w, fd); r.Ok? && Closing(r.w) && r.w.t == w.t - {fd} && |r.w.conns| == |w.conns|
  {
    hide Closing, Destroy, Release;
    if fd in w.t && w.t[fd].data != 0 {
      AttachedIsLive(w, fd);
      OursCloses(w, fd, w.t[fd].data - 1);
    } else if fd in w.t {
      ForeignCloses(w, fd);
    } else {
      assert w.t - {fd} == w.t;
    }
  }

  lemma AttachedIsLive(w: World, fd: int)
    requires Closing(w) && fd in w.t && w.t[fd].data != 0
    ensures IsLive(w, Attached(w.t, fd))
  {
    hide Fds, ObjectsOk;
  }

  /** The world after a descriptor of connection `k` was closed. */
  function Ours(w: World, fd: int, k: nat): World
    requires k < |w.conns|
  {
    var c := Destroy(w.conns[k]);
    var p := if c.live then Pool(w.pool, w.poolSize) else Release(Pool(w.pool, w.poolSize), c.obj);
    w.(conns := w.conns[k := c], t := w.t - {fd}, pool := p.objs, poolSize := p.size)
  }

  lemma OursCloses(w: World, fd: int, k: nat)
    requires Closing(w) && fd in w.t && w.t[fd].data == k + 1 && k < |w.conns| && w.conns[k].live
    ensures Closing(Ours(w, fd, k))
  {
    hide Fds, TableOk, ObjectsOk, Release;
    var c := Destroy(w.conns[k]);
    CountsAfterClose(w, fd, k, c);
    TableAfterClose(w.conns, w.t, fd, k, c);
    ObjectsAfterClose(w.conns, w.pool, w.poolSize, k, c);
  }

  lemma ForeignCloses(w: World, fd: int)
    requires Closing(w) && fd in w.t && w.t[fd].data == 0
    ensures Closing(w.(t := w.t - {fd}))
  {
    forall id: nat | id != 0 ensures Fds(w.t - {fd}, id) == Fds(w.t, id) {
      FdsAfterClose(w.t, fd, id);
    }
    hide Fds, ObjectsOk;
  }

  lemma {:induction false} CloseAllKeeps(w: World, fds: seq<int>)
    requires Closing(w)
    ensures var r := CloseAll(w, fds);
            && r.Ok? && Closing(r.w) && |r.w.conns| == |w.conns| && r.w.t == w.t - (set fd | fd in fds)
    decreases |fds|
  {
    if fds != [] {
      hide Closing, CloseOne;
      CloseOneKeeps(w, fds[0]);
      CloseAllKeeps(CloseOne(w, fds[0]).w, fds[1..]);
      assert fds == [fds[0]] + fds[1..];
    }
  }

  lemma ReachableCloses(w: World)
    requires Reachable(w)
    ensures Closing(w)
  {
    ReachableInv(w);
    SameLength(w);
    forall k | 0 <= k < |w.conns| && w.conns[k].live
      ensures Fds(w.t, k + 1) != {} && |Fds(w.t, k + 1)| == w.conns[k].references
    {
      ReferencesCountDescriptors(w, k);
      ReachableConn(w, k);
      assert w.conns[k].clientFd in Fds(w.t, k + 1);
    }
    hide ConnInv, ConnsOk, GatesOk, DeadOk, StatsOk, DnsOk, Reachable, Fds, TableOk, ObjectsOk;
  }

  /**
   * Closing every descriptor, whatever the world, releases every live connection, each once: no close
   * callback meets a released object, nothing is left registered, and no object is pooled twice.
   */
  lemma TeardownReleasesAll(w: World, fds: seq<int>)
    requires Reachable(w) && forall fd :: fd in w.t ==> fd in fds
    ensures var r := CloseAll(w, fds);
            && r.Ok? && r.w.t == map[] && |r.w.conns| == |w.conns|
            && (forall k :: 0 <= k < |w.conns| ==> !r.w.conns[k].live)
            && ObjectsOk(r.w.conns, r.w.pool, r.w.poolSize)
  {
    hide Reachable, CloseAll, Closing, ObjectsOk;
    ReachableCloses(w);
    CloseAllKeeps(w, fds);
    var end := CloseAll(w, fds).w;
    NothingLeft(w.t, fds);
    hide Closing;
    NobodyLeft(end);
  }

  lemma NothingLeft(t: Table, fds: seq<int>)
    requires forall fd :: fd in t ==> fd in fds
    ensures t - (set fd | fd in fds) == map[]
  {
    var all := set fd | fd in fds;
    forall fd ensures fd !in t - all {
      if fd in t {
        assert fd in fds;
      }
    }
    assert (t - all).Keys == {};
  }

  lemma NobodyLeft(end: World)
    requires Closing(end) && end.t == map[]
    ensures forall k :: 0 <= k < |end.conns| ==> !end.conns[k].live
    ensures ObjectsOk(end.conns, end.pool, end.poolSize)
  {
    forall k | 0 <= k < |end.conns| ensures !end.conns[k].live {
      assert Fds(end.t, k + 1) == {};
    }
  }
}
