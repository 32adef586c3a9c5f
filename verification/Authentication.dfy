/** Who is let through, what the client is told about it, and whether the two agree. */
module Authentication {
  import opened Bytes
  import opened Buffers
  import opened Selector
  import opened Session
  import opened SessionInvariant
  import opened SessionEngine
  import opened World
  import opened WorldInvariant
  import opened WorldProofs
  import opened Guarantees
  import H = Hello
  import A = Auth
  import R = Request

  // ---------------------------------------------------------------- the gate

  ghost function GateOf(w: World, k: nat): Gate {
    if k < |w.conns| then w.conns[k].log.gate else Shut
  }

  /**
   * A step opens the gate of a connection only for the reason of the moment: authentication is off, or
   * the user table as it stands holds the user that matched.
   */
  lemma GateOpens(w: World, s: Step, k: nat)
    requires Inv(w) && Enabled(w, s) && Next(w, s).Ok? && GateOf(Next(w, s).w, k) != GateOf(w, k)
    ensures var w' := Next(w, s).w;
            match GateOf(w', k)
            case Shut => true
            case AuthOff => !w'.g.authOn
            case Matched(u) => k < |w.conns| && w.conns[k].live && u in w.g.users
  {
    hide Inv;
    if RunsHandler(s) {
      var j, o, main := EventOf(w, s);
      hide Enabled, Next;
    } else {
      SameLength(w);
      OthersKeepGates(w, s, k);
    }
  }

  lemma OthersKeepGates(w: World, s: Step, k: nat)
    requires |w.workers| == |w.conns| && Enabled(w, s) && Next(w, s).Ok? && !RunsHandler(s)
    ensures GateOf(Next(w, s).w, k) == GateOf(w, k)
  {
    hide OnRead, OnWrite, OnBlock, FinishSpawn, Unused, RetryWorks, Frame, AfterRegister, Release;
    match s {
      case Accept(_, _, _) => hide Enabled;
      case Lookup(k, found) =>
      case Notify(k) =>
      case _ => hide Enabled;
    }
  }

  /** At step `i` of the run the user table held `u`, and connection `k` matched it. */
  ghost predicate MatchesAt(start: World, steps: seq<Step>, i: nat, k: nat, u: User) {
    && i < |steps| && Run(start, steps[..i]).Ok? && Run(start, steps[..i + 1]).Ok?
    && var w, w' := Run(start, steps[..i]).w, Run(start, steps[..i + 1]).w;
       && u in w.g.users && k < |w.conns| && w.conns[k].live
       && GateOf(w, k) != Matched(u) && GateOf(w', k) == Matched(u)
  }

  ghost predicate Matches(start: World, steps: seq<Step>, k: nat, u: User) {
    exists i: nat :: MatchesAt(start, steps, i, k, u)
  }

  lemma {:induction false} PossibleBefore(w: World, steps: seq<Step>, s: Step)
    requires Possible(w, steps + [s])
    ensures Possible(w, steps) && (Run(w, steps).Ok? ==> Enabled(Run(w, steps).w, s))
    decreases |steps|
  {
    hide Next, Enabled;
    var all := steps + [s];
    if steps == [] {
      assert all == [s];
    } else {
      assert all[0] == steps[0] && all[1..] == steps[1..] + [s];
      if Next(w, steps[0]).Ok? {
        PossibleBefore(Next(w, steps[0]).w, steps[1..], s);
      }
    }
  }

  lemma MatchesLater(start: World, steps: seq<Step>, s: Step, k: nat, u: User)
    requires Matches(start, steps, k, u)
    ensures Matches(start, steps + [s], k, u)
  {
    hide Run;
    var i: nat :| MatchesAt(start, steps, i, k, u);
    assert (steps + [s])[..i] == steps[..i] && (steps + [s])[..i + 1] == steps[..i + 1];
    assert MatchesAt(start, steps + [s], i, k, u);
  }

  lemma {:induction false} MatchedBefore(start: World, steps: seq<Step>, k: nat, u: User)
    requires Inv(start) && Possible(start, steps) && Run(start, steps).Ok?
    requires GateOf(start, k) == Shut && GateOf(Run(start, steps).w, k) == Matched(u)
    ensures Matches(start, steps, k, u)
    decreases |steps|
  {
    hide Inv, Next, Enabled, Matches, GateOf;
    if steps == [] {
      assert false;
    } else {
      var n := |steps| - 1;
      var before, s := steps[..n], steps[n];
      assert steps == before + [s];
      PossibleBefore(start, before, s);
      RunSplits(start, before, s);
      RunKeeps(start, before);
      var w := Run(start, before).w;
      if GateOf(w, k) == Matched(u) {
        MatchedBefore(start, before, k, u);
        MatchesLater(start, before, s, k, u);
      } else {
        GateOpens(w, s, k);
        assert steps[..n] == before && steps[..n + 1] == steps;
        assert MatchesAt(start, steps, n, k, u);
        assert Matches(start, steps, k, u) by { MatchesBy(start, steps, n, k, u); }
      }
    }
  }

  lemma MatchesBy(start: World, steps: seq<Step>, i: nat, k: nat, u: User)
    requires MatchesAt(start, steps, i, k, u)
    ensures Matches(start, steps, k, u)
  {
    hide MatchesAt;
  }

  predicate Past(p: Phase) {
    p in {RequestRead, RequestResolv, RequestConnecting, RequestWrite, Copy}
  }

  /**
   * Whoever gets to send a request was let through while authentication was off, which it then stays,
   * or sent a complete credential message for a user that the table held at that very step of the run.
   */
  lemma AuthenticationGate(users: seq<User>, t: Table, steps: seq<Step>, w: World, k: nat)
    requires RunsTo(users, t, steps, w) && k < |w.conns| && w.conns[k].live && Past(w.conns[k].phase)
    ensures var l := w.conns[k].log;
            match l.gate
            case Shut => false
            case AuthOff => !w.g.authOn
            case Matched(u) =>
              && Matches(Start(users, t), steps, k, u)
              && var cred := A.Parsed(A.INIT, l.auth).st;
                 cred.state == A.Done && CString(cred.uname) == u.name && CString(cred.passwd) == u.pass
  {
    hide Run, Possible, ConnInv, Inv, A.Parsed, CString, Matches;
    assert Reachable(w);
    hide Reachable;
    ReachableConn(w, k);
    PastIsAdmitted(w.conns[k], w.t, k + 1, w.g.authOn);
    GateStaysOff(w, k);
    if w.conns[k].log.gate.Matched? {
      StartKeeps(users, t);
      MatchedBefore(Start(users, t), steps, k, w.conns[k].log.gate.user);
    }
  }

  lemma PastIsAdmitted(c: Conn, t: Table, id: nat, authOn: bool)
    requires ConnInv(c, t, id, authOn) && Past(c.phase)
    ensures Admitted(c.log.gate, c.log.auth, c.log.authAtFlush)
  {
    hide H.Parsed, A.Parsed, R.Parsed, Owned, Aimed, Prelude, Common, Admitted, CompleteConnect;
  }

  lemma GateStaysOff(w: World, k: nat)
    requires Reachable(w) && k < |w.conns|
    ensures w.conns[k].log.gate == AuthOff ==> !w.g.authOn
  {
    ReachableInv(w);
    hide Reachable, ConnsOk, TableOk, ObjectsOk, StatsOk, DnsOk, DeadOk;
  }

  // ---------------------------------------------------------------- what the client is told

  /** The server asks for credentials, or has asked for them. */
  predicate AsksFor(c: Conn) {
    c.phase == AuthRead || c.phase == AuthWrite || c.log.gate.Matched?
  }

  predicate Told(c: Conn) {
    c.phase !in {Fresh, HelloRead, HelloWrite}
  }

  lemma ToldState(c: Conn, t: Table, id: nat, authOn: bool)
    requires ConnInv(c, t, id, authOn) && Told(c)
    ensures ChosenRight(c.log.authAtHello, c.log.hello, c.log.early, c.log.chosen) && Asked(c.log)
    ensures AsksFor(c) == c.log.authAtFlush
  {
    hide ChosenRight, H.Parsed, A.Parsed, R.Parsed, Owned, Aimed, Mirrored, Streams, Prelude;
  }

  /**
   * Once the method has been sent: credentials are asked for exactly if the flag was up at that moment.
   * The client may be told to expect it and then not be asked, exactly if the flag was up when 02 came
   * in the offer, no 00 came after it had fallen, and it was down when the method had been sent.
   */
  lemma AnnouncedInVainIff(w: World, k: nat)
    requires Reachable(w) && k < |w.conns| && w.conns[k].live && Told(w.conns[k])
    ensures var c := w.conns[k];
            var l := c.log;
            && 2 <= |l.hello| && l.early <= |l.hello|
            && (AsksFor(c) <==> l.authAtFlush)
            && (AsksFor(c) ==>
                  l.authAtHello && l.early == |l.hello| && l.chosen in {H.USERNAME_PASSWORD, H.NO_ACCEPTABLE})
            && (l.chosen == H.USERNAME_PASSWORD && !AsksFor(c) <==>
                  && l.authAtHello && H.USERNAME_PASSWORD in H.FirstPart(l.hello, l.early)
                  && H.NO_AUTHENTICATION !in H.LastPart(l.hello, l.early) && !l.authAtFlush)
  {
    hide Reachable, ConnInv, Asked, H.FirstPart, H.LastPart;
    ReachableConn(w, k);
    ToldState(w.conns[k], w.t, k + 1, w.g.authOn);
    var l := w.conns[k].log;
    OfferAnswered(l.authAtHello, l.hello, l.early, l.chosen);
    AskedChose(l);
  }

  lemma AskedChose(l: Log)
    requires 2 <= |l.hello| && l.early <= |l.hello| && l.chosen == H.Selected(l.authAtHello, l.hello, l.early)
             && Asked(l)
    ensures l.authAtFlush ==>
              l.authAtHello && l.early == |l.hello| && l.chosen in {H.USERNAME_PASSWORD, H.NO_ACCEPTABLE}
  {
  }

  /** The method announced is the one then used, exactly if it was on offer while it was accepted. */
  lemma AnnouncedIsUsedIff(w: World, k: nat)
    requires Reachable(w) && k < |w.conns| && w.conns[k].live && Told(w.conns[k])
    ensures var c := w.conns[k];
            var l := c.log;
            && 2 <= |l.hello| && l.early <= |l.hello|
            && (l.chosen == (if AsksFor(c) then H.USERNAME_PASSWORD else H.NO_AUTHENTICATION) <==>
                if l.authAtFlush then H.USERNAME_PASSWORD in l.hello[2..]
                else H.NO_AUTHENTICATION in H.LastPart(l.hello, l.early)
                     || (!l.authAtHello && H.NO_AUTHENTICATION in l.hello[2..]))
  {
    hide Reachable, ConnInv, H.LastPart;
    ReachableConn(w, k);
    ToldState(w.conns[k], w.t, k + 1, w.g.authOn);
    var l := w.conns[k].log;
    OfferAnswered(l.authAtHello, l.hello, l.early, l.chosen);
  }

  /**
   * On reaching COPY the client has been sent exactly: version and method, the approval if it
   * authenticated, and the successful reply. The method is the accepted one if it was offered and FF
   * otherwise; where authentication was switched off after `early` bytes of the offer, what each part
   * of the offer was measured against is what was accepted then. The approval follows exactly if the
   * flag was up when the method had been sent, and then the method is not 00.
   */
  lemma Transcript(w: World, k: nat)
    requires Reachable(w) && k < |w.conns| && w.conns[k].live && w.conns[k].phase == Copy
    ensures var l := w.conns[k].log;
            && l.replies == [5, l.chosen] + (if l.gate.Matched? then [1, 0] else [])
                            + [5, 0, 0, 1, 0, 0, 0, 0, 0, 0]
            && l.replies <= l.toClient
            && (l.gate.Matched? <==> l.authAtFlush)
            && (l.gate.Matched? ==> l.early == |l.hello| && l.chosen in {H.USERNAME_PASSWORD, H.NO_ACCEPTABLE})
            && |l.hello| >= 2 && l.hello == [5, |l.hello| - 2] + l.hello[2..]
            && l.early <= |l.hello| && (!l.authAtHello ==> l.early == |l.hello|)
            && l.chosen == H.Selected(l.authAtHello, l.hello, l.early)
            && (l.early == |l.hello| ==>
                  l.chosen == if H.Accepted(l.authAtHello) in l.hello[2..] then H.Accepted(l.authAtHello) else 0xFF)
  {
    hide Reachable, ConnInv, H.Selected, H.Accepted;
    ReachableConn(w, k);
    RelayReplied(w.conns[k], w.t, k + 1, w.g.authOn);
    AnnouncedInVainIff(w, k);
    var l := w.conns[k].log;
    OfferAnswered(l.authAtHello, l.hello, l.early, l.chosen);
  }

  lemma RelayReplied(c: Conn, t: Table, id: nat, authOn: bool)
    requires ConnInv(c, t, id, authOn) && c.phase == Copy
    ensures ChosenRight(c.log.authAtHello, c.log.hello, c.log.early, c.log.chosen) && c.log.replies <= c.log.toClient
    ensures c.log.replies == [5, c.log.chosen] + (if c.log.gate.Matched? then [1, 0] else [])
                             + [5, 0, 0, 1, 0, 0, 0, 0, 0, 0]
  {
    hide ChosenRight, Owned, Aimed, Admitted, Mirrored, Streams;
  }

  lemma OfferAnswered(authOn: bool, hello: seq<byte>, early: nat, chosen: byte)
    requires ChosenRight(authOn, hello, early, chosen)
    ensures |hello| >= 2 && hello == [5, |hello| - 2] + hello[2..]
    ensures early <= |hello| && (!authOn ==> early == |hello|) && chosen == H.Selected(authOn, hello, early)
    ensures early == |hello| ==> chosen == if H.Accepted(authOn) in hello[2..] then H.Accepted(authOn) else 0xFF
  {
    hide H.Parsed, H.Negotiated, H.IsDone;
    H.OfferShape(authOn, hello, early);
    assert hello[2..|hello|] == hello[2..] && hello[|hello|..] == [];
  }
}
