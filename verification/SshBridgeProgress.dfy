/** Progress of the bridge while both channels are open: nobody has to close for bytes,
    requests, answers and EOF to arrive. */
module SshBridgeProgress {
  import opened SshBridge
  import opened SshBridgeSafety
  import opened SshBridgeTheorems

  // ----- the start gate opens -----

  /** A start request that was answered has opened the gate or is about to; channels
      that are no sessions have theirs open. */
  ghost predicate GateOpened(s: Bridge) {
    && (forall e :: e in s.down.log && e.0.kind in {"shell", "exec", "subsystem"} ==> s.down.fwd.Marking? || s.startOnce)
    && (!s.session ==> s.startOnce)
  }

  lemma GateLane(s: Bridge, w: Way, act: LaneAction)
    requires GateOpened(s) && Enabled(s, InLane(w, act))
    ensures GateOpened(Apply(s, InLane(w, act)))
  {
  }

  lemma GateStep(s: Bridge, a: Action)
    requires GateOpened(s) && Enabled(s, a)
    ensures GateOpened(Apply(s, a)) && Apply(s, a).session == s.session
  {
    hide LaneEnabled, LaneApply;
    if a.InLane? { GateLane(s, a.way, a.act); }
  }

  lemma {:induction false} GateRun(session: bool, counted: bool, acts: seq<Action>, t: Bridge)
    requires Runs(Init(session, counted), acts, t)
    ensures GateOpened(t)
    decreases |acts|
  {
    hide Enabled, Apply;
    if acts != [] {
      var k := |acts| - 1;
      var m :| Runs(Init(session, counted), acts[..k], m) && Enabled(m, acts[k]) && Apply(m, acts[k]) == t;
      GateRun(session, counted, acts[..k], m);
      GateStep(m, acts[k]);
    }
  }

  /** Once a shell, exec or subsystem request has been answered and its forwarder has moved
      on, the gate is open, for good and closed over once; for other channels it always is. */
  lemma StartOpensGate(s: Bridge)
    requires Reachable(s)
    ensures forall e :: e in s.down.log && e.0.kind in {"shell", "exec", "subsystem"} && !s.down.fwd.Marking? ==> s.startCloses == 1
    ensures !s.session ==> s.startCloses == 1
    ensures GateOpened(s)
  {
    InvReachable(s);
    hide Inv, Runs;
    GateCount(s);
    var session, counted, acts :| Runs(Init(session, counted), acts, s);
    GateRun(session, counted, acts, s);
  }

  lemma GateCount(s: Bridge)
    requires Inv(s)
    ensures s.startCloses == if s.startOnce then 1 else 0
  {
  }

  // ----- a lane at rest -----

  /** No CLOSE has been sent either way. */
  predicate Open(s: Bridge) {
    !s.client.sentClose && !s.backend.sentClose && !s.client.peerClosed && !s.backend.peerClosed
  }

  /** A goroutine of this lane can move, or the far peer owes it window or a verdict. */
  ghost predicate MovesIn(s: Bridge, w: Way) {
    exists a :: Enabled(s, a) && (BridgeMove(a) || Owed(s, a)) && Within(a, w)
  }

  predicate Within(a: Action, w: Way) { (a.InLane? && a.way == w) || (a.PeerWindow? && a.party == DstParty(w)) }

  predicate ForwarderRests(l: Lane) { l.fwd.Ranging? && l.queue == [] }

  /** Reading with nothing to read, done, or held at the gate. */
  predicate PumpRests(s: Bridge, w: Way) {
    var l := LaneOf(s, w);
    (l.pump.Reading? && l.unread == [] && !Src(s, w).peerEof) || l.pump.PumpDone? || (l.pump.Gating? && w.Down? && s.startCloses == 0)
  }

  lemma ForwarderGoesOn(s: Bridge, w: Way)
    requires Inv(s) && Open(s) && !ForwarderRests(LaneOf(s, w))
    ensures MovesIn(s, w)
  {
    hide Inv;
    PumpFacts(s, w);
    NotDraining(s, w);
    var a := match LaneOf(s, w).fwd
      case Ranging => InLane(w, TakeRequest)
      case Sending(_) => InLane(w, SendRequest)
      case Awaiting(_) => InLane(w, PeerVerdict(true))
      case Replying(_, _) => InLane(w, Reply)
      case Marking => InLane(w, Mark);
    assert Enabled(s, a);
  }

  lemma NotDraining(s: Bridge, w: Way)
    requires Inv(s) && Open(s)
    ensures !Draining(LaneOf(s, w).fwd)
    ensures LaneOf(s, w).dropped == []
    ensures !LaneOf(s, w).pump.Reading? && !LaneOf(s, w).pump.Writing? ==> Src(s, w).peerEof && LaneOf(s, w).unread == []
    ensures PumpShut(LaneOf(s, w).pump) ==> Eof in Dst(s, w).trace
    ensures Eof in Dst(s, w).trace ==> PumpShut(LaneOf(s, w).pump)
    ensures PumpShut(LaneOf(s, w).pump) <==> Dst(s, w).sentEof
  {
    hide Bytes, Asked, Heard, Answered, ErrShape, Gates;
    assert EndShape(Dst(s, w)) && LaneInv(w, s.counted, TripleOf(s, w));
  }

  lemma PumpGoesOn(s: Bridge, w: Way)
    requires Inv(s) && Open(s) && !PumpRests(s, w)
    ensures MovesIn(s, w)
  {
    hide Inv;
    PumpFacts(s, w);
    NotDraining(s, w);
    var l, d := LaneOf(s, w), Dst(s, w);
    var a := match l.pump
      case Reading => if l.unread == [] then InLane(w, ReadEnd) else InLane(w, ReadChunk(|l.unread|))
      case Writing(buf) => if d.window > 0 then InLane(w, WriteChunk(1)) else PeerWindow(DstParty(w), 1)
      case Gating => InLane(w, PassGate)
      case Shutting => InLane(w, SendEof)
      case Signalling => InLane(w, Signal);
    assert Enabled(s, a);
  }

  /** What the lane's source has sent has arrived, in full and answered. */
  ghost predicate Delivered(s: Bridge, w: Way) {
    && DataOf(Dst(s, w).trace) == LaneOf(s, w).sent
    && AsksOf(Dst(s, w).trace) == LaneOf(s, w).asked
    && Requests(LaneOf(s, w).log) == LaneOf(s, w).asked
    && AnswersOf(Src(s, w).trace) == Verdicts(LaneOf(s, w).log) == LaneOf(s, w).heard
  }

  /** The client has asked the session to start a program, or the channel is no session. */
  ghost predicate Startable(s: Bridge) {
    !s.session || exists r :: r in s.down.asked && r.kind in {"shell", "exec", "subsystem"}
  }

  lemma RestDelivers(s: Bridge, w: Way)
    requires Inv(s) && Open(s) && LaneOf(s, w).fwd.Ranging? && LaneOf(s, w).queue == []
    requires !LaneOf(s, w).pump.Writing? && LaneOf(s, w).unread == []
    ensures Delivered(s, w)
  {
    hide Gates, ErrShape, DataOf, AsksOf, AnswersOf, Requests, Verdicts;
    NotDraining(s, w);
    assert LaneInv(w, s.counted, TripleOf(s, w));
    var l := LaneOf(s, w);
    assert l.read + [] == l.read && l.taken + [] == l.taken && DataOf(Dst(s, w).trace) + [] == DataOf(Dst(s, w).trace);
  }

  /** With both channels open and nothing left to do in a lane, everything its source has
      sent has arrived, and EOF has arrived exactly when the source sent it; towards a
      session's backend only once the client had asked for a program. */
  lemma LaneSettled(s: Bridge, w: Way)
    requires Reachable(s) && Open(s) && !MovesIn(s, w)
    ensures Delivered(s, w)
    ensures Eof in Dst(s, w).trace <==> Src(s, w).peerEof && (w.Up? || Startable(s))
  {
    InvReachable(s);
    StartOpensGate(s);
    hide Inv, MovesIn, Reachable, Requests, GateOpened, Delivered;
    if !ForwarderRests(LaneOf(s, w)) {
      ForwarderGoesOn(s, w);
    } else if !PumpRests(s, w) {
      PumpGoesOn(s, w);
    } else {
      NotDraining(s, w);
      RestDelivers(s, w);
      if w.Down? { GateAtRest(s); }
    }
  }

  lemma GateAtRest(s: Bridge)
    requires Inv(s) && GateOpened(s) && Open(s) && s.down.fwd.Ranging? && Delivered(s, Down)
    ensures s.startCloses == 0 ==> !Startable(s)
    ensures PumpShut(s.down.pump) ==> Startable(s)
  {
    hide Ends, Lanes, ErrShape, Requests;
    if s.startCloses == 0 && s.session && Startable(s) {
      var r :| r in s.down.asked && r.kind in {"shell", "exec", "subsystem"};
      Logged(s.down.log, r);
      assert false;
    }
    if PumpShut(s.down.pump) && s.session {
      var r :| r in Requests(s.down.log) && StartsProgram(r);
      assert r in s.down.asked;
    }
  }

  lemma {:induction false} Logged(log: seq<(Request, bool)>, r: Request)
    requires r in Requests(log)
    ensures exists e :: e in log && e.0 == r
  {
    var n := |log| - 1;
    if log[n].0 != r {
      Logged(log[..n], r);
      var e :| e in log[..n] && e.0 == r;
      assert e in log;
    } else {
      assert log[n] in log;
    }
  }

  /** After the client's EOF, once it has asked for a program, the bridge never rests
      before the backend has the EOF too. */
  lemma EofProgress(s: Bridge)
    requires Reachable(s) && Open(s) && s.client.peerEof && Eof !in s.backend.trace
    requires s.session ==> exists r :: r in s.down.asked && r.kind in {"shell", "exec", "subsystem"}
    ensures MovesIn(s, Down)
  {
    hide MovesIn, Reachable, Open, Delivered;
    if !MovesIn(s, Down) { LaneSettled(s, Down); }
  }

  // ----- every dutiful run -----

  /** What only volunteers change. */
  predicate SameWishes(s: Bridge, t: Bridge) {
    && t.session == s.session && t.errSent == s.errSent
    && t.down.sent == s.down.sent && t.down.asked == s.down.asked && t.client.peerEof == s.client.peerEof
    && t.up.sent == s.up.sent && t.up.asked == s.up.asked && t.backend.peerEof == s.backend.peerEof
  }

  lemma OpenLane(s: Bridge, w: Way, act: LaneAction)
    requires Inv(s) && Open(s) && Enabled(s, InLane(w, act)) && !act.PeerData? && !act.PeerAsk?
    ensures Open(Apply(s, InLane(w, act))) && SameWishes(s, Apply(s, InLane(w, act)))
  {
    NotDraining(s, w);
    hide Inv, PumpShut;
  }

  lemma OpenStep(s: Bridge, a: Action)
    requires Inv(s) && Open(s) && Enabled(s, a) && (BridgeMove(a) || Owed(s, a))
    ensures Open(Apply(s, a)) && SameWishes(s, Apply(s, a))
  {
    hide Inv, LaneEnabled, LaneApply;
    if a.InLane? { OpenLane(s, a.way, a.act); }
  }

  lemma {:induction false} OpenRun(s: Bridge, acts: seq<Action>, t: Bridge)
    requires Reachable(s) && Open(s) && DutifulRun(s, acts, t)
    ensures Reachable(t) && Open(t) && SameWishes(s, t)
    decreases |acts|
  {
    hide Enabled, Apply, Reachable, Open, BridgeMove, Owed;
    if acts != [] {
      var k := |acts| - 1;
      var m :| DutifulRun(s, acts[..k], m) && Enabled(m, acts[k]) && Apply(m, acts[k]) == t &&
               (BridgeMove(acts[k]) || Owed(m, acts[k]));
      OpenRun(s, acts[..k], m);
      InvReachable(m);
      OpenStep(m, acts[k]);
      ReachableStep(m, acts[k]);
    }
  }

  /** With both channels open and peers that only do what they owe, the bridge comes to
      rest within Work(s) steps; by then all bytes, requests and answers of both lanes
      have arrived, EOF towards the client if and only if the backend sent it, EOF
      towards the backend if and only if the client sent it and asked for a program, and
      all of stderr unless the client was told EOF. */
  lemma OpenSettles(s: Bridge, acts: seq<Action>, t: Bridge)
    requires Reachable(s) && Open(s) && DutifulRun(s, acts, t)
    ensures |acts| <= Work(s) && Open(t) && SameWishes(s, t)
    ensures !CanMove(t) ==> Delivered(t, Down) && Delivered(t, Up)
    ensures !CanMove(t) ==> (Eof in t.client.trace <==> s.backend.peerEof)
    ensures !CanMove(t) ==> (Eof in t.backend.trace <==> s.client.peerEof && Startable(s))
    ensures !CanMove(t) && !s.backend.peerEof ==> StderrOf(t.client.trace) == s.errSent
  {
    hide Work, Reachable, Open, Delivered, DataOf, StderrOf;
    DutifulBound(s, acts, t);
    OpenRun(s, acts, t);
    if !CanMove(t) {
      NobodyIn(t);
      LaneSettled(t, Down);
      LaneSettled(t, Up);
      if !s.backend.peerEof { ErrSettled(t); }
    }
  }

  lemma NobodyIn(s: Bridge)
    requires !CanMove(s)
    ensures !MovesIn(s, Down) && !MovesIn(s, Up)
  {
    hide Enabled, BridgeMove, Owed;
  }

  lemma ErrSettled(s: Bridge)
    requires Reachable(s) && Open(s) && !CanMove(s) && !s.backend.peerEof
    ensures StderrOf(s.client.trace) == s.errSent
  {
    hide Reachable, Open, CanMove, StderrOf;
    InvReachable(s);
    if StderrOf(s.client.trace) != s.errSent { ErrGoesOn(s); }
  }

  lemma ErrGoesOn(s: Bridge)
    requires Inv(s) && Open(s) && !s.backend.peerEof && StderrOf(s.client.trace) != s.errSent
    ensures CanMove(s)
  {
    hide StderrOf, Gates;
    NotDraining(s, Up);
    assert StderrOf(s.client.trace) + [] == StderrOf(s.client.trace) && s.errRead + [] == s.errRead;
    var a := match s.errPump
      case Reading => InErr(ErrRead(|s.errUnread|))
      case Writing(_) => if s.client.window > 0 then InErr(ErrWrite(1)) else PeerWindow(Client, 1);
    assert Enabled(s, a);
  }
}
