/** What the channel bridge promises, over every run: order, fidelity and completion. */
module SshBridgeTheorems {
  import opened SshBridge
  import opened SshBridgeSafety

  /** A CLOSE the bridge itself sends comes last and after everything: all bytes
      and all requests of the far peer, exit-status included, and the EOF.  The
      only other CLOSE is the answer to the near peer's own. */
  lemma CloseComesLast(s: Bridge, w: Way)
    requires Reachable(s)
    requires Close in Dst(s, w).trace
    ensures Dst(s, w).trace[|Dst(s, w).trace| - 1] == Close
    ensures forall i :: 0 <= i < |Dst(s, w).trace| - 1 ==> Dst(s, w).trace[i] != Close
    ensures Dst(s, w).closedByUs || Dst(s, w).peerClosed
    ensures Dst(s, w).closedByUs ==>
      && LaneOf(s, w).pump.PumpDone? && Drained(Src(s, w), LaneOf(s, w))
      && DataOf(Dst(s, w).trace) == LaneOf(s, w).sent
      && AsksOf(Dst(s, w).trace) == LaneOf(s, w).asked
      && Eof in Dst(s, w).trace
  {
    hide DataOf, AsksOf, StderrOf, AnswersOf, Gates, ErrShape, Reachable;
    InvReachable(s);
    assert EndShape(Dst(s, w)) && LaneInv(w, s.counted, TripleOf(s, w));
    var e, l := Dst(s, w), LaneOf(s, w);
    if e.closedByUs {
      assert l.unread == [] && l.queue == [];
      assert l.read + [] == l.read && l.taken + [] == l.taken;
      assert DataOf(e.trace) + [] == DataOf(e.trace);
    }
  }

  /** After our EOF nothing but requests, answers and CLOSE is sent (section 5.3 of RFC 4254). */
  lemma NoDataAfterEof(s: Bridge, w: Way, i: nat, j: nat)
    requires Reachable(s)
    requires i < j < |Dst(s, w).trace| && Dst(s, w).trace[i] == Eof
    ensures Dst(s, w).trace[j].Ask? || Dst(s, w).trace[j].Answer? || Dst(s, w).trace[j].Close?
  {
    InvReachable(s);
    assert EndShape(Dst(s, w));
  }

  /** On a session the backend's EOF waits for a start-program request that was
      forwarded before it and has been dealt with, or for the client's requests
      to drain. */
  lemma EofWaitsForProgram(s: Bridge, j: nat)
    requires Reachable(s) && s.session
    requires j < |s.backend.trace| && s.backend.trace[j] == Eof
    ensures Drained(s.client, s.down) ||
      ((exists r :: r in Requests(s.down.log) && r.kind in {"shell", "exec", "subsystem"}) &&
       exists i :: 0 <= i < j && s.backend.trace[i].Ask? && s.backend.trace[i].request.kind in {"shell", "exec", "subsystem"})
  {
    InvReachable(s);
    assert s.backend.trace[j].Eof?;
    assert s.backend.sentEof;
  }

  /** No Go channel of the bridge is closed twice; each is closed once its goroutine is done. */
  lemma SignalsCloseOnce(s: Bridge)
    requires Reachable(s)
    ensures s.startCloses <= 1 && s.down.stops <= 1 && s.up.stops <= 1
    ensures s.down.fwd.FwdDone? ==> s.startCloses == 1
    ensures s.down.pump.PumpDone? <==> s.down.stops == 1
    ensures s.up.pump.PumpDone? <==> s.up.stops == 1
  {
    InvReachable(s);
  }

  /** Bytes arrive in order and unchanged; the counter is what was read, and
      exceeds what was delivered by the buffer in flight or lost to a closed channel. */
  lemma StreamFidelity(s: Bridge, w: Way)
    requires Reachable(s)
    ensures DataOf(Dst(s, w).trace) <= LaneOf(s, w).sent
    ensures LaneOf(s, w).read <= LaneOf(s, w).sent
    ensures s.counted ==> LaneOf(s, w).counter == |LaneOf(s, w).read|
    ensures s.counted ==> LaneOf(s, w).counter - |DataOf(Dst(s, w).trace)| == |Undelivered(LaneOf(s, w))|
    ensures Undelivered(LaneOf(s, w)) != [] ==> LaneOf(s, w).pump.Writing? || Dst(s, w).sentClose
  {
    InvReachable(s);
    assert LaneInv(w, s.counted, TripleOf(s, w));
  }

  /** Requests are forwarded in order; the near peer hears one answer for each
      request that wants one, in order, with the far peer's verdict, or false once
      the far channel is closed. */
  lemma RequestFidelity(s: Bridge, w: Way)
    requires Reachable(s)
    ensures AsksOf(Dst(s, w).trace) <= LaneOf(s, w).asked
    ensures Requests(LaneOf(s, w).log) <= LaneOf(s, w).asked
    ensures AnswersOf(Src(s, w).trace) <= Verdicts(LaneOf(s, w).log) <= Ruled(LaneOf(s, w))
    ensures LaneOf(s, w).heard <= Ruled(LaneOf(s, w))
    ensures forall i :: |LaneOf(s, w).heard| <= i < |Ruled(LaneOf(s, w))| ==> !Ruled(LaneOf(s, w))[i]
    ensures !Dst(s, w).sentClose ==> Ruled(LaneOf(s, w)) == LaneOf(s, w).heard
    ensures !Src(s, w).sentClose ==> AnswersOf(Src(s, w).trace) == Verdicts(LaneOf(s, w).log)
  {
    InvReachable(s);
    assert LaneInv(w, s.counted, TripleOf(s, w));
  }

  lemma StderrInOrder(s: Bridge)
    requires Reachable(s)
    ensures StderrOf(s.client.trace) <= s.errRead <= s.errSent
  {
    InvReachable(s);
  }

  /** The client was told that no more data comes. */
  predicate ClientEnded(s: Bridge) { s.client.sentEof || s.client.sentClose }

  /** After that no step delivers a byte of stderr. */
  lemma StderrFrozen(s: Bridge, a: Action)
    requires Enabled(s, a) && ClientEnded(s)
    ensures ClientEnded(Apply(s, a)) && StderrOf(Apply(s, a).client.trace) == StderrOf(s.client.trace)
  {
    hide StderrOf, DataOf, AsksOf, AnswersOf, LaneApply, LaneEnabled;
    match a
    case InLane(w, act) => LaneEnds(w, s.startCloses > 0, s.counted, TripleOf(s, w), act);
    case PeerClose(p) => if p.Client? { Snoc(s.client.trace, Close); }
    case _ =>
  }

  lemma {:induction false} StderrFrozenRun(s: Bridge, acts: seq<Action>, t: Bridge)
    requires ClientEnded(s) && Runs(s, acts, t)
    ensures ClientEnded(t) && StderrOf(t.client.trace) == StderrOf(s.client.trace)
    decreases |acts|
  {
    hide Enabled, Apply, StderrOf;
    if acts != [] {
      var k := |acts| - 1;
      var m :| Runs(s, acts[..k], m) && Enabled(m, acts[k]) && Apply(m, acts[k]) == t;
      StderrFrozenRun(s, acts[..k], m);
      StderrFrozen(m, acts[k]);
    }
  }

  lemma ErrSentStep(s: Bridge, a: Action)
    requires Enabled(s, a)
    ensures s.errSent <= Apply(s, a).errSent
  {
    hide LaneApply, LaneEnabled;
  }

  /** What the backend has sent stays sent. */
  lemma {:induction false} ErrSentGrows(s: Bridge, acts: seq<Action>, t: Bridge)
    requires Runs(s, acts, t)
    ensures s.errSent <= t.errSent
    decreases |acts|
  {
    hide Enabled, Apply;
    if acts != [] {
      var k := |acts| - 1;
      var m :| Runs(s, acts[..k], m) && Enabled(m, acts[k]) && Apply(m, acts[k]) == t;
      ErrSentGrows(s, acts[..k], m);
      ErrSentStep(m, acts[k]);
    }
  }

  /** Until then nothing is lost: what is not delivered is in the copy buffer or unread. */
  lemma StderrPending(s: Bridge)
    requires Reachable(s) && !ClientEnded(s)
    ensures s.errSent == StderrOf(s.client.trace) + (if s.errPump.Writing? then s.errPump.buf else []) + s.errUnread
  {
    InvReachable(s);
  }

  /** Exactly when all of stderr arrives: from the moment EOF or CLOSE goes to the
      client, in every continuation, the backend's stderr is complete if and only if
      all of it had been delivered by that moment and the backend adds nothing. */
  lemma StderrArrivesIff(s: Bridge, acts: seq<Action>, t: Bridge)
    requires Reachable(s) && ClientEnded(s) && Runs(s, acts, t)
    ensures StderrOf(t.client.trace) == t.errSent <==>
      StderrOf(s.client.trace) == s.errSent && t.errSent == s.errSent
  {
    InvReachable(s);
    hide StderrOf;
    StderrFrozenRun(s, acts, t);
    ErrSentGrows(s, acts, t);
    assert StderrOf(s.client.trace) <= s.errSent by { StderrInOrder(s); }
  }

  lemma RunSnoc(s: Bridge, acts: seq<Action>, m: Bridge, a: Action)
    requires Runs(s, acts, m) && Enabled(m, a)
    ensures Runs(s, acts + [a], Apply(m, a))
  {
    assert (acts + [a])[..|acts|] == acts;
  }

  /** The backend wrote one byte to stderr and sent EOF; the stdout pump saw the
      EOF first and passed it on. */
  const CutState: Bridge :=
    Init(true, true).(
      errSent := [1], errUnread := [1],
      backend := NewEnd.(peerEof := true),
      client := NewEnd.(sentEof := true, trace := [Eof]),
      up := NewLane.(pump := Signalling))

  lemma ReachableStep(s: Bridge, a: Action)
    requires Reachable(s) && Enabled(s, a)
    ensures Reachable(Apply(s, a))
  {
    hide Enabled, Apply;
    var session, counted, acts :| Runs(Init(session, counted), acts, s);
    RunSnoc(Init(session, counted), acts, s, a);
  }

  lemma CutStateReachable()
    ensures Reachable(CutState)
  {
    hide Reachable;
    var s0 := Init(true, true);
    InitReachable(true, true);
    ReachableStep(s0, InErr(PeerStderr([1])));
    ReachableStep(Apply(s0, InErr(PeerStderr([1]))), PeerEof(Backend));
    var s2 := Apply(Apply(s0, InErr(PeerStderr([1]))), PeerEof(Backend));
    ReachableStep(s2, InLane(Up, ReadEnd));
    ReachableStep(Apply(s2, InLane(Up, ReadEnd)), InLane(Up, PassGate));
    var s4 := Apply(Apply(s2, InLane(Up, ReadEnd)), InLane(Up, PassGate));
    ReachableStep(s4, InLane(Up, SendEof));
    assert Apply(s4, InLane(Up, SendEof)) == CutState;
  }

  /** Nobody waits for the stderr copier: its bytes can be lost to the EOF that
      ends stdout, while the client's channel is still open. */
  lemma StderrCanBeCut()
    ensures exists s :: Reachable(s) && !s.client.sentClose && s.errPump.PumpDone? &&
              s.errSent == [1] && StderrOf(s.client.trace) == []
  {
    hide Reachable;
    CutStateReachable();
    ReachableStep(CutState, InErr(ErrRead(1)));
    var s6 := Apply(CutState, InErr(ErrRead(1)));
    ReachableStep(s6, InErr(ErrWriteFail));
    Snoc([], Eof);
    assert [Eof] == [] + [Eof];
    assert Reachable(Apply(s6, InErr(ErrWriteFail)));
  }

  lemma InitReachable(session: bool, counted: bool)
    ensures Reachable(Init(session, counted))
  {
    assert Runs(Init(session, counted), [], Init(session, counted));
  }

  // ----- completion -----

  predicate Finished(s: Bridge) {
    && s.down.fwd.FwdDone? && s.up.fwd.FwdDone?
    && s.down.pump.PumpDone? && s.up.pump.PumpDone? && s.errPump.PumpDone?
    && s.client.sentClose && s.client.peerClosed && s.backend.sentClose && s.backend.peerClosed
    && s.startCloses == 1 && s.down.stops == 1 && s.up.stops == 1
  }

  /** A step of one of the five goroutines. */
  predicate BridgeMove(a: Action) {
    (a.InLane? && !a.act.PeerData? && !a.act.PeerAsk? && !a.act.PeerVerdict?) || (a.InErr? && !a.err.PeerStderr?)
  }

  /** What a peer owes: CLOSE for CLOSE, a verdict on a request it was asked, and
      window when it has none left (sections 5.2, 5.3 and 5.4 of RFC 4254). */
  predicate Owed(s: Bridge, a: Action) {
    || (a.PeerClose? && Side(s, a.party).sentClose)
    || (a.InLane? && a.act.PeerVerdict?)
    || (a.PeerWindow? && Side(s, a.party).window == 0)
  }

  ghost predicate CanMove(s: Bridge) {
    exists a :: Enabled(s, a) && (BridgeMove(a) || Owed(s, a))
  }

  function DstParty(w: Way): Party { if w.Down? then Backend else Client }

  lemma PumpMoves(s: Bridge, w: Way)
    requires Inv(s) && Src(s, w).peerClosed && !LaneOf(s, w).pump.PumpDone?
    requires w.Down? && LaneOf(s, w).pump.Gating? ==> s.startCloses > 0
    ensures CanMove(s)
  {
    hide Inv;
    PumpFacts(s, w);
    var l, d := LaneOf(s, w), Dst(s, w);
    var a := match l.pump
      case Reading => if l.unread == [] then InLane(w, ReadEnd) else InLane(w, ReadChunk(|l.unread|))
      case Writing(buf) =>
        if d.sentEof || d.sentClose then InLane(w, WriteFail)
        else if d.window > 0 then InLane(w, WriteChunk(1))
        else PeerWindow(DstParty(w), 1)
      case Gating => InLane(w, PassGate)
      case Shutting => InLane(w, SendEof)
      case Signalling => InLane(w, Signal);
    assert Enabled(s, a);
  }

  lemma PumpFacts(s: Bridge, w: Way)
    requires Inv(s)
    ensures LaneOf(s, w).pump.Writing? ==> |LaneOf(s, w).pump.buf| > 0
    ensures Dst(s, w).peerClosed ==> Dst(s, w).sentClose
    ensures LaneOf(s, w).pump.PumpDone? ==> LaneOf(s, w).stops == 1
    ensures LaneOf(s, w).fwd.FwdDone? ==> LaneOf(s, w).pump.PumpDone? && Dst(s, w).sentClose
    ensures w.Down? && (s.down.fwd.WaitPump? || s.down.fwd.FwdDone?) ==> s.startCloses == 1
    ensures w.Up? ==> !s.up.fwd.Marking? && !s.up.fwd.DrainMark?
  {
    hide Bytes, Asked, Heard, Answered, ErrShape;
  }

  lemma ForwarderMoves(s: Bridge, w: Way)
    requires Inv(s) && Src(s, w).peerClosed && !LaneOf(s, w).fwd.FwdDone?
    ensures CanMove(s)
  {
    hide Inv;
    PumpFacts(s, w);
    var l := LaneOf(s, w);
    if l.fwd.WaitPump? && l.stops == 0 {
      PumpMoves(s, w);
    } else {
      var a := match l.fwd
        case Ranging => if l.queue == [] then InLane(w, Drain) else InLane(w, TakeRequest)
        case Sending(_) => InLane(w, SendRequest)
        case Awaiting(_) => if Dst(s, w).peerClosed then InLane(w, AskAborted) else InLane(w, PeerVerdict(true))
        case Replying(_, _) => InLane(w, Reply)
        case Marking => InLane(w, Mark)
        case DrainMark => InLane(w, Mark)
        case WaitPump => InLane(w, AwaitPump)
        case Closing => InLane(w, CloseFar);
      assert Enabled(s, a);
    }
  }

  /** A lane whose source has closed runs until its far side has closed too. */
  lemma LaneMoves(s: Bridge, w: Way)
    requires Inv(s) && Src(s, w).peerClosed
    requires !(LaneOf(s, w).fwd.FwdDone? && Dst(s, w).peerClosed)
    ensures CanMove(s)
  {
    hide Inv;
    if LaneOf(s, w).fwd.FwdDone? {
      PumpFacts(s, w);
      assert Enabled(s, PeerClose(DstParty(w)));
    } else {
      ForwarderMoves(s, w);
    }
  }

  lemma ErrMoves(s: Bridge)
    requires Inv(s) && s.client.peerClosed && s.backend.peerClosed && !s.errPump.PumpDone?
    ensures CanMove(s)
  {
    hide Lanes, Gates;
    var a := match s.errPump
      case Reading => if s.errUnread == [] then InErr(ErrReadEnd) else InErr(ErrRead(|s.errUnread|))
      case Writing(_) => InErr(ErrWriteFail);
    assert Enabled(s, a);
  }

  /** No deadlock: once a peer has closed, either a goroutine can move or a peer
      owes something, until everything is finished. */
  lemma NoDeadlock(s: Bridge)
    requires Reachable(s) && (s.client.peerClosed || s.backend.peerClosed) && !Finished(s)
    ensures CanMove(s)
  {
    InvReachable(s);
    hide Inv;
    PumpFacts(s, Down);
    PumpFacts(s, Up);
    var first := if s.client.peerClosed then Down else Up;
    if !(LaneOf(s, first).fwd.FwdDone? && Dst(s, first).peerClosed) {
      LaneMoves(s, first);
    } else if !(LaneOf(s, Back(first)).fwd.FwdDone? && Dst(s, Back(first)).peerClosed) {
      LaneMoves(s, Back(first));
    } else {
      ErrMoves(s);
    }
  }

  // ----- the measure -----

  function PumpWork(p: Pump): nat {
    match p
    case Reading => 4
    case Writing(buf) => 5 + 3 * |buf|
    case Gating => 3
    case Shutting => 2
    case Signalling => 1
    case PumpDone => 0
  }

  function FwdWork(f: Forwarder): nat {
    match f
    case Ranging => 4
    case Sending(_) => 8
    case Awaiting(_) => 7
    case Replying(_, _) => 6
    case Marking => 5
    case DrainMark => 3
    case WaitPump => 2
    case Closing => 1
    case FwdDone => 0
  }

  function LaneWork(l: Lane): nat {
    6 * |l.unread| + PumpWork(l.pump) + 5 * |l.queue| + FwdWork(l.fwd)
  }

  function EndWork(e: End): nat {
    (if e.peerEof then 0 else 1) + (if e.peerClosed then 0 else 1) + (if e.window == 0 then 1 else 0)
  }

  /** Bounds the steps left when the peers volunteer nothing more. */
  function Work(s: Bridge): nat {
    LaneWork(s.down) + LaneWork(s.up) + EndWork(s.client) + EndWork(s.backend) +
    6 * |s.errUnread| + PumpWork(s.errPump)
  }

  /** What a voluntary step of a peer may add. */
  function Credit(a: Action): nat {
    match a
    case InLane(_, PeerData(b)) => 6 * |b| + 1
    case InLane(_, PeerAsk(_)) => 6
    case InErr(PeerStderr(b)) => 6 * |b| + 1
    case PeerWindow(_, _) => 1
    case _ => 0
  }

  lemma LaneWorkStep(w: Way, gate: bool, counted: bool, t: Triple, a: LaneAction)
    requires LaneEnabled(w, gate, t, a)
    ensures var t' := LaneApply(w, gate, counted, t, a);
      LaneWork(t'.lane) + EndWork(t'.src) + EndWork(t'.dst) + 1 <=
        LaneWork(t.lane) + EndWork(t.src) + EndWork(t.dst) + Credit(InLane(w, a))
  {
  }

  lemma ErrWorkStep(s: Bridge, a: ErrAction)
    requires ErrEnabled(s, a)
    ensures Work(ErrApply(s, a)) + 1 <= Work(s) + Credit(InErr(a))
  {
    hide LaneWork;
  }

  lemma PeerWindowWork(s: Bridge, p: Party, n: nat)
    requires Enabled(s, PeerWindow(p, n))
    ensures Work(Apply(s, PeerWindow(p, n))) <= Work(s)
    ensures Side(s, p).window == 0 ==> Work(Apply(s, PeerWindow(p, n))) < Work(s)
  {
    hide LaneWork, PumpWork, LaneApply, LaneEnabled, ErrApply, ErrEnabled;
  }

  lemma PeerEndsWork(s: Bridge, a: Action)
    requires Enabled(s, a) && (a.PeerEof? || a.PeerClose?)
    ensures Work(Apply(s, a)) < Work(s)
  {
    hide LaneWork, PumpWork, LaneApply, LaneEnabled, ErrApply, ErrEnabled;
  }

  lemma LaneInBridgeStep(s: Bridge, w: Way, a: LaneAction)
    requires Enabled(s, InLane(w, a))
    ensures Work(Apply(s, InLane(w, a))) + 1 <= Work(s) + Credit(InLane(w, a))
  {
    hide LaneApply, LaneEnabled, LaneWork, PumpWork, EndWork, Credit;
    LaneWorkStep(w, s.startCloses > 0, s.counted, TripleOf(s, w), a);
  }

  lemma WorkStep(s: Bridge, a: Action)
    requires Enabled(s, a)
    ensures Work(Apply(s, a)) + 1 <= Work(s) + Credit(a)
    ensures BridgeMove(a) || Owed(s, a) ==> Work(Apply(s, a)) < Work(s)
  {
    hide Work;
    match a
    case InLane(w, act) => LaneInBridgeStep(s, w, act);
    case InErr(act) => ErrWorkStep(s, act);
    case PeerWindow(p, n) => PeerWindowWork(s, p, n);
    case _ => PeerEndsWork(s, a);
  }

  function TotalCredit(acts: seq<Action>): nat {
    if acts == [] then 0 else TotalCredit(acts[..|acts|-1]) + Credit(acts[|acts|-1])
  }

  /** The length of any run is bounded by what the peers volunteered. */
  lemma {:induction false} RunBound(s: Bridge, acts: seq<Action>, t: Bridge)
    requires Runs(s, acts, t)
    ensures Work(t) + |acts| <= Work(s) + TotalCredit(acts)
    decreases |acts|
  {
    if acts != [] {
      var k := |acts| - 1;
      var m :| Runs(s, acts[..k], m) && Enabled(m, acts[k]) && Apply(m, acts[k]) == t;
      RunBound(s, acts[..k], m);
      WorkStep(m, acts[k]);
    }
  }

  /** A run in which the peers only do what they owe. */
  ghost predicate DutifulRun(s: Bridge, acts: seq<Action>, t: Bridge)
    decreases |acts|
  {
    if acts == [] then s == t
    else
      var k := |acts| - 1;
      exists m :: DutifulRun(s, acts[..k], m) && Enabled(m, acts[k]) && Apply(m, acts[k]) == t &&
                  (BridgeMove(acts[k]) || Owed(m, acts[k]))
  }

  lemma {:induction false} DutifulBound(s: Bridge, acts: seq<Action>, t: Bridge)
    requires DutifulRun(s, acts, t)
    ensures Runs(s, acts, t)
    ensures Work(t) + |acts| <= Work(s)
    ensures s.client.peerClosed ==> t.client.peerClosed
    ensures s.backend.peerClosed ==> t.backend.peerClosed
    decreases |acts|
  {
    if acts != [] {
      var k := |acts| - 1;
      var m :| DutifulRun(s, acts[..k], m) && Enabled(m, acts[k]) && Apply(m, acts[k]) == t &&
               (BridgeMove(acts[k]) || Owed(m, acts[k]));
      DutifulBound(s, acts[..k], m);
      WorkStep(m, acts[k]);
      PeerClosedStays(m, acts[k]);
    }
  }

  lemma PeerClosedStays(s: Bridge, a: Action)
    requires Enabled(s, a)
    ensures s.client.peerClosed ==> Apply(s, a).client.peerClosed
    ensures s.backend.peerClosed ==> Apply(s, a).backend.peerClosed
  {
    if a.InLane? {
      LaneEnds(a.way, s.startCloses > 0, s.counted, TripleOf(s, a.way), a.act);
    }
  }

  lemma {:induction false} RunsTrans(s: Bridge, a: seq<Action>, m: Bridge, b: seq<Action>, t: Bridge)
    requires Runs(s, a, m) && Runs(m, b, t)
    ensures Runs(s, a + b, t)
    decreases |b|
  {
    if b == [] {
      assert a + b == a;
    } else {
      var k := |b| - 1;
      var n :| Runs(m, b[..k], n) && Enabled(n, b[k]) && Apply(n, b[k]) == t;
      RunsTrans(s, a, m, b[..k], n);
      assert (a + b)[..|a + b| - 1] == a + b[..k];
      assert (a + b)[|a + b| - 1] == b[k];
    }
  }

  /** From any reachable state in which a peer has closed, the goroutines and the
      peers' duties need at most Work(s) steps, and when none of them is left
      every goroutine has ended and both sides are closed. */
  lemma CloseCompletes(s: Bridge, acts: seq<Action>, t: Bridge)
    requires Reachable(s) && (s.client.peerClosed || s.backend.peerClosed)
    requires DutifulRun(s, acts, t)
    ensures |acts| <= Work(s)
    ensures !CanMove(t) ==> Finished(t)
  {
    DutifulBound(s, acts, t);
    var session, counted, before :| Runs(Init(session, counted), before, s);
    RunsTrans(Init(session, counted), before, s, acts, t);
    if !CanMove(t) && !Finished(t) {
      NoDeadlock(t);
    }
  }
}
