/** Safety of the channel bridge: what holds in every reachable state of every interleaving. */
module SshBridgeSafety {
  import opened SshBridge

  function InFlight(p: Pump): seq<Byte> { if p.Writing? then p.buf else [] }

  predicate PumpEnded(p: Pump) { !p.Reading? && !p.Writing? }
  predicate PumpShut(p: Pump) { p.Signalling? || p.PumpDone? }

  /** Requests the forwarder has taken from its queue. */
  function Handled(l: Lane): seq<Request> {
    if l.fwd.Sending? || l.fwd.Awaiting? || l.fwd.Replying? then Requests(l.log) + [l.fwd.req] else Requests(l.log)
  }

  /** Requests that have been handed to the far side or have failed there. */
  function Forwarded(l: Lane): seq<Request> {
    if l.fwd.Awaiting? || l.fwd.Replying? then Requests(l.log) + [l.fwd.req] else Requests(l.log)
  }

  /** Verdicts so far, the one about to be passed back included. */
  function Ruled(l: Lane): seq<bool> {
    if l.fwd.Replying? && l.fwd.req.wantReply then Verdicts(l.log) + [l.fwd.ok] else Verdicts(l.log)
  }

  predicate Draining(f: Forwarder) { f.DrainMark? || f.WaitPump? || f.Closing? || f.FwdDone? }

  /** The source peer closed and every request it made has been dealt with. */
  predicate Drained(src: End, l: Lane) {
    src.peerClosed && l.queue == [] && Draining(l.fwd)
  }

  // ----- the invariant, in parts -----

  ghost predicate EndShape(e: End) {
    && (e.peerClosed ==> e.sentClose)
    && (e.sentClose <==> e.peerClosed || e.closedByUs)
    && (e.sentClose ==> e.trace != [] && e.trace[|e.trace|-1].Close?)
    && (forall i :: 0 <= i < |e.trace| && e.trace[i].Close? ==> e.sentClose && i == |e.trace| - 1)
    && (forall i :: 0 <= i < |e.trace| && e.trace[i].Eof? ==> e.sentEof)
    && (forall i, j :: 0 <= i < j < |e.trace| && e.trace[i].Eof? ==>
          e.trace[j].Ask? || e.trace[j].Answer? || e.trace[j].Close?)
    && (e.sentEof && !e.sentClose ==> Eof in e.trace)
    && (e.closedByUs ==> Eof in e.trace)
  }

  predicate PumpShape(counted: bool, t: Triple) {
    var l := t.lane;
    && (l.pump.Writing? ==> l.pump.buf != [])
    && (PumpShut(l.pump) <==> t.dst.sentEof)
    && l.stops == (if l.pump.PumpDone? then 1 else 0)
    && l.counter == (if counted then |l.read| else 0)
    && (l.dropped != [] ==> t.dst.sentClose && PumpEnded(l.pump))
    && (PumpEnded(l.pump) ==> l.dropped != [] || (l.unread == [] && (t.src.peerEof || t.src.peerClosed)))
    && (t.dst.closedByUs ==> l.pump.PumpDone? && l.fwd.FwdDone? && l.dropped == [])
  }

  /** Bytes that were read but not delivered: in the copy buffer, or lost to a closed channel. */
  function Undelivered(l: Lane): seq<Byte> {
    if l.pump.Writing? then l.pump.buf else l.dropped
  }

  predicate Bytes(t: Triple) {
    && t.lane.sent == t.lane.read + t.lane.unread
    && t.lane.read == DataOf(t.dst.trace) + Undelivered(t.lane)
  }

  predicate ForwarderShape(w: Way, t: Triple) {
    var l := t.lane;
    && (Draining(l.fwd) ==> Drained(t.src, l))
    && (l.fwd.Closing? || l.fwd.FwdDone? ==> l.pump.PumpDone?)
    && (l.fwd.FwdDone? ==> t.dst.sentClose)
    && (l.fwd.Awaiting? ==> l.fwd.req.wantReply)
    && (w.Up? ==> !l.fwd.Marking? && !l.fwd.DrainMark?)
  }

  predicate Asked(t: Triple) {
    var l := t.lane;
    && l.asked == l.taken + l.queue
    && l.taken == Handled(l)
    && AsksOf(t.dst.trace) <= Forwarded(l)
    && (!t.dst.sentClose || t.dst.closedByUs ==> AsksOf(t.dst.trace) == Forwarded(l))
  }

  predicate Heard(t: Triple) {
    var l := t.lane;
    && l.heard <= Ruled(l)
    && (forall i :: |l.heard| <= i < |Ruled(l)| ==> !Ruled(l)[i])
    && (!t.dst.sentClose || t.dst.closedByUs ==> Ruled(l) == l.heard)
  }

  predicate Answered(t: Triple) {
    && AnswersOf(t.src.trace) <= Verdicts(t.lane.log)
    && (!t.src.sentClose ==> AnswersOf(t.src.trace) == Verdicts(t.lane.log))
  }

  ghost predicate LaneInv(w: Way, counted: bool, t: Triple) {
    && PumpShape(counted, t)
    && Bytes(t)
    && ForwarderShape(w, t)
    && Asked(t)
    && Heard(t)
    && Answered(t)
  }

  ghost predicate HasStart(rs: seq<Request>) {
    exists r :: r in rs && StartsProgram(r)
  }

  /** Why the start gate may be open. */
  ghost predicate GateShape(session: bool, once: bool, t: Triple) {
    && (t.lane.pump.Shutting? || PumpShut(t.lane.pump) ==> once)
    && (t.lane.fwd.WaitPump? || t.lane.fwd.Closing? || t.lane.fwd.FwdDone? ==> once)
    && (t.lane.fwd.Marking? ==> HasStart(Requests(t.lane.log)))
    && (once ==> !session || Drained(t.src, t.lane) || HasStart(Requests(t.lane.log)))
  }

  /** Every EOF in the trace was preceded by a start-program request. */
  ghost predicate StartBeforeEof(t: seq<Msg>) {
    forall j :: 0 <= j < |t| && t[j].Eof? ==>
      exists i :: 0 <= i < j && t[i].Ask? && StartsProgram(t[i].request)
  }

  ghost predicate EofGate(session: bool, t: Triple) {
    !session || Drained(t.src, t.lane) || StartBeforeEof(t.dst.trace)
  }

  predicate ErrShape(s: Bridge) {
    && s.errSent == s.errRead + s.errUnread
    && s.errRead == StderrOf(s.client.trace) + (if s.errPump.Writing? then s.errPump.buf else s.errDropped)
    && (s.errPump.Reading? || s.errPump.Writing? || s.errPump.PumpDone?)
    && (s.errPump.Writing? ==> s.errPump.buf != [] && s.errDropped == [])
    && (s.errPump.Reading? ==> s.errDropped == [])
    && (s.errDropped != [] ==> s.client.sentEof || s.client.sentClose)
    && (s.errPump.PumpDone? ==> s.errDropped != [] || (s.errUnread == [] && (s.backend.peerEof || s.backend.peerClosed)))
  }

  ghost predicate Ends(s: Bridge) { EndShape(s.client) && EndShape(s.backend) }

  ghost predicate Lanes(s: Bridge) {
    LaneInv(Down, s.counted, TripleOf(s, Down)) && LaneInv(Up, s.counted, TripleOf(s, Up))
  }

  ghost predicate Gates(s: Bridge) {
    && s.startCloses == (if s.startOnce then 1 else 0)
    && GateShape(s.session, s.startOnce, TripleOf(s, Down))
    && EofGate(s.session, TripleOf(s, Down))
  }

  ghost predicate Inv(s: Bridge) {
    Ends(s) && Lanes(s) && Gates(s) && ErrShape(s)
  }

  // ----- one channel end -----

  lemma PutShape(e: End, m: Msg)
    requires EndShape(e) && !e.sentClose
    requires m.Data? || m.Stderr? ==> !e.sentEof
    requires !m.Eof? && !m.Close?
    ensures EndShape(Put(e, m))
  {
    var t' := e.trace + [m];
    assert forall i :: 0 <= i < |e.trace| ==> t'[i] == e.trace[i];
    if e.sentEof {
      assert Eof in e.trace;
      assert Eof in t';
    }
  }

  lemma PutEofShape(e: End)
    requires EndShape(e) && !e.sentClose && !e.sentEof
    ensures EndShape(Put(e, Eof).(sentEof := true))
  {
    var t' := e.trace + [Eof];
    assert t'[|e.trace|] == Eof;
    assert forall i :: 0 <= i < |e.trace| ==> t'[i] == e.trace[i];
  }

  lemma PutCloseShape(e: End, ours: bool)
    requires EndShape(e) && !e.sentClose && (ours ==> e.sentEof)
    ensures EndShape(Put(e, Close).(sentClose := true, closedByUs := ours, peerClosed := !ours))
  {
    var t' := e.trace + [Close];
    assert forall i :: 0 <= i < |e.trace| ==> t'[i] == e.trace[i];
    if e.sentEof {
      assert Eof in e.trace;
      assert Eof in t';
    }
  }

  /** What a lane action puts on the wire towards the lane's destination. */
  function ToDst(t: Triple, a: LaneAction): seq<Msg>
    requires a.WriteChunk? ==> t.lane.pump.Writing? && a.n <= |t.lane.pump.buf|
    requires a.SendRequest? ==> t.lane.fwd.Sending?
  {
    match a
    case WriteChunk(n) => [Data(t.lane.pump.buf[..n])]
    case SendEof => if t.dst.sentClose then [] else [Eof]
    case SendRequest => if t.dst.sentClose then [] else [Ask(t.lane.fwd.req)]
    case CloseFar => if t.dst.sentClose then [] else [Close]
    case _ => []
  }

  /** What a lane action puts on the wire towards the lane's source. */
  function ToSrc(t: Triple, a: LaneAction): seq<Msg>
    requires a.Reply? ==> t.lane.fwd.Replying?
  {
    if a.Reply? && t.lane.fwd.req.wantReply && !t.src.sentClose then [Answer(t.lane.fwd.ok)] else []
  }

  lemma Emits(w: Way, gate: bool, counted: bool, t: Triple, a: LaneAction)
    requires LaneEnabled(w, gate, t, a)
    ensures LaneApply(w, gate, counted, t, a).dst.trace == t.dst.trace + ToDst(t, a)
    ensures LaneApply(w, gate, counted, t, a).src.trace == t.src.trace + ToSrc(t, a)
  {
    assert t.dst.trace + [] == t.dst.trace;
    assert t.src.trace + [] == t.src.trace;
  }

  lemma Projections(t: seq<Msg>, ms: seq<Msg>)
    requires |ms| <= 1
    ensures DataOf(t + ms) == if ms != [] && ms[0].Data? then DataOf(t) + ms[0].bytes else DataOf(t)
    ensures StderrOf(t + ms) == if ms != [] && ms[0].Stderr? then StderrOf(t) + ms[0].bytes else StderrOf(t)
    ensures AsksOf(t + ms) == if ms != [] && ms[0].Ask? then AsksOf(t) + [ms[0].request] else AsksOf(t)
    ensures AnswersOf(t + ms) == if ms != [] && ms[0].Answer? then AnswersOf(t) + [ms[0].ok] else AnswersOf(t)
  {
    if ms == [] {
      assert t + ms == t;
    } else {
      Snoc(t, ms[0]);
      assert ms == [ms[0]];
    }
  }

  /** How the four projections of the two traces change in one lane action. */
  lemma LaneProjections(w: Way, gate: bool, counted: bool, t: Triple, a: LaneAction)
    requires LaneEnabled(w, gate, t, a)
    ensures var t' := LaneApply(w, gate, counted, t, a);
      && DataOf(t'.dst.trace) == (if a.WriteChunk? then DataOf(t.dst.trace) + t.lane.pump.buf[..a.n]
                                  else DataOf(t.dst.trace))
      && AsksOf(t'.dst.trace) == (if a.SendRequest? && !t.dst.sentClose then AsksOf(t.dst.trace) + [t.lane.fwd.req]
                                  else AsksOf(t.dst.trace))
      && AnswersOf(t'.src.trace) == (if a.Reply? && t.lane.fwd.req.wantReply && !t.src.sentClose
                                     then AnswersOf(t.src.trace) + [t.lane.fwd.ok] else AnswersOf(t.src.trace))
      && DataOf(t'.src.trace) == DataOf(t.src.trace)
      && AsksOf(t'.src.trace) == AsksOf(t.src.trace)
      && AnswersOf(t'.dst.trace) == AnswersOf(t.dst.trace)
      && StderrOf(t'.dst.trace) == StderrOf(t.dst.trace)
      && StderrOf(t'.src.trace) == StderrOf(t.src.trace)
  {
    hide LaneApply, DataOf, StderrOf, AsksOf, AnswersOf;
    Emits(w, gate, counted, t, a);
    Projections(t.dst.trace, ToDst(t, a));
    Projections(t.src.trace, ToSrc(t, a));
  }

  /** Each lane action leaves both ends well formed. */
  lemma EndsStep(w: Way, gate: bool, counted: bool, t: Triple, a: LaneAction)
    requires LaneEnabled(w, gate, t, a) && LaneInv(w, counted, t)
    requires EndShape(t.src) && EndShape(t.dst)
    ensures EndShape(LaneApply(w, gate, counted, t, a).src)
    ensures EndShape(LaneApply(w, gate, counted, t, a).dst)
  {
    match a
    case WriteChunk(n) => PutShape(t.dst, Data(t.lane.pump.buf[..n]));
    case SendEof => if !t.dst.sentClose { PutEofShape(t.dst); }
    case SendRequest => if !t.dst.sentClose { PutShape(t.dst, Ask(t.lane.fwd.req)); }
    case Reply => if !t.src.sentClose { PutShape(t.src, Answer(t.lane.fwd.ok)); }
    case CloseFar => if !t.dst.sentClose { PutCloseShape(t.dst, true); }
    case _ =>
  }

  // ----- a lane and what happens around it -----

  /** What steps outside a lane may do to the lane's two ends. */
  predicate Foreign(t: Triple, t': Triple) {
    && t'.lane == t.lane
    && DataOf(t'.dst.trace) == DataOf(t.dst.trace)
    && AsksOf(t'.dst.trace) == AsksOf(t.dst.trace)
    && AnswersOf(t'.src.trace) == AnswersOf(t.src.trace)
    && t'.dst.sentEof == t.dst.sentEof
    && t'.dst.closedByUs == t.dst.closedByUs
    && (t.dst.sentClose ==> t'.dst.sentClose)
    && (t.src.sentClose ==> t'.src.sentClose)
    && (t.src.peerEof ==> t'.src.peerEof)
    && (t.src.peerClosed ==> t'.src.peerClosed)
  }

  lemma ForeignKeeps(w: Way, counted: bool, t: Triple, t': Triple)
    requires LaneInv(w, counted, t) && Foreign(t, t')
    ensures LaneInv(w, counted, t')
  {
  }

  function Back(w: Way): Way { if w.Down? then Up else Down }

  /** An action of one lane is foreign to the lane the other way. */
  lemma CrossForeign(w: Way, gate: bool, counted: bool, t: Triple, a: LaneAction, other: Lane)
    requires LaneEnabled(w, gate, t, a)
    ensures var t' := LaneApply(w, gate, counted, t, a);
            Foreign(Triple(t.dst, t.src, other), Triple(t'.dst, t'.src, other))
  {
    hide DataOf, StderrOf, AsksOf, AnswersOf;
    LaneProjections(w, gate, counted, t, a);
  }

  lemma PumpShapeStep(w: Way, gate: bool, counted: bool, t: Triple, a: LaneAction)
    requires LaneEnabled(w, gate, t, a) && EndShape(t.dst) && PumpShape(counted, t) && ForwarderShape(w, t)
    requires Bytes(t)
    ensures PumpShape(counted, LaneApply(w, gate, counted, t, a))
  {
    hide DataOf, StderrOf, AsksOf, AnswersOf, Requests, Verdicts;
  }

  lemma SplitTail<T>(d: seq<T>, b: seq<T>, n: nat)
    requires n <= |b|
    ensures d + b == (d + b[..n]) + b[n..]
  {
  }

  lemma Assoc<T>(a: seq<T>, b: seq<T>, c: seq<T>)
    ensures (a + b) + c == a + (b + c)
  {
  }

  lemma BytesRead(w: Way, gate: bool, counted: bool, t: Triple, n: nat)
    requires LaneEnabled(w, gate, t, ReadChunk(n)) && PumpShape(counted, t) && Bytes(t)
    ensures Bytes(LaneApply(w, gate, counted, t, ReadChunk(n)))
  {
    SplitTail(t.lane.read, t.lane.unread, n);
  }

  lemma BytesWrite(w: Way, gate: bool, counted: bool, t: Triple, n: nat)
    requires LaneEnabled(w, gate, t, WriteChunk(n)) && PumpShape(counted, t) && Bytes(t)
    ensures Bytes(LaneApply(w, gate, counted, t, WriteChunk(n)))
  {
    hide DataOf, StderrOf, AsksOf, AnswersOf;
    LaneProjections(w, gate, counted, t, WriteChunk(n));
    SplitTail(DataOf(t.dst.trace), t.lane.pump.buf, n);
  }

  lemma BytesStep(w: Way, gate: bool, counted: bool, t: Triple, a: LaneAction)
    requires LaneEnabled(w, gate, t, a) && PumpShape(counted, t) && Bytes(t)
    ensures Bytes(LaneApply(w, gate, counted, t, a))
  {
    hide DataOf, StderrOf, AsksOf, AnswersOf;
    var l := t.lane;
    match a
    case ReadChunk(n) => BytesRead(w, gate, counted, t, n);
    case WriteChunk(n) => BytesWrite(w, gate, counted, t, n);
    case PeerData(b) => Assoc(l.read, l.unread, b);
    case WriteFail =>
      assert l.dropped + l.pump.buf == l.pump.buf;
    case _ =>
      LaneProjections(w, gate, counted, t, a);
  }

  lemma ForwarderShapeStep(w: Way, gate: bool, counted: bool, t: Triple, a: LaneAction)
    requires LaneEnabled(w, gate, t, a) && PumpShape(counted, t) && ForwarderShape(w, t)
    ensures ForwarderShape(w, LaneApply(w, gate, counted, t, a))
  {
    hide DataOf, StderrOf, AsksOf, AnswersOf, Requests, Verdicts;
  }

  lemma PrefixGrows<T>(a: seq<T>, b: seq<T>, x: T)
    requires a <= b
    ensures a <= b + [x]
  {
  }

  lemma AskedTake(w: Way, gate: bool, counted: bool, t: Triple)
    requires LaneEnabled(w, gate, t, TakeRequest) && Asked(t)
    ensures Asked(LaneApply(w, gate, counted, t, TakeRequest))
  {
    SplitTail(t.lane.taken, t.lane.queue, 1);
  }

  lemma AskedReply(w: Way, gate: bool, counted: bool, t: Triple)
    requires LaneEnabled(w, gate, t, Reply) && Asked(t)
    ensures Asked(LaneApply(w, gate, counted, t, Reply))
  {
    hide Requests, Verdicts, AsksOf;
    LogSnoc(t.lane.log, (t.lane.fwd.req, t.lane.fwd.ok));
  }

  lemma AskedSend(w: Way, gate: bool, counted: bool, t: Triple)
    requires LaneEnabled(w, gate, t, SendRequest) && Asked(t)
    requires t.dst.closedByUs ==> t.lane.fwd.FwdDone?
    ensures Asked(LaneApply(w, gate, counted, t, SendRequest))
  {
    hide DataOf, StderrOf, AsksOf, AnswersOf, Requests;
    LaneProjections(w, gate, counted, t, SendRequest);
    PrefixGrows(AsksOf(t.dst.trace), Requests(t.lane.log), t.lane.fwd.req);
  }

  lemma AskedStep(w: Way, gate: bool, counted: bool, t: Triple, a: LaneAction)
    requires LaneEnabled(w, gate, t, a) && Asked(t)
    requires t.dst.closedByUs ==> t.lane.fwd.FwdDone?
    ensures Asked(LaneApply(w, gate, counted, t, a))
  {
    hide DataOf, StderrOf, AsksOf, AnswersOf, Requests, Verdicts;
    match a
    case TakeRequest => AskedTake(w, gate, counted, t);
    case Reply => AskedReply(w, gate, counted, t);
    case SendRequest => AskedSend(w, gate, counted, t);
    case PeerAsk(r) => Assoc(t.lane.taken, t.lane.queue, [r]);
    case _ =>
      LaneProjections(w, gate, counted, t, a);
  }

  /** Which verdict an action adds: the peer's, or a false one for a channel that is gone. */
  lemma RuledStep(w: Way, gate: bool, counted: bool, t: Triple, a: LaneAction)
    requires LaneEnabled(w, gate, t, a) && (t.lane.fwd.Awaiting? ==> t.lane.fwd.req.wantReply)
    ensures var l' := LaneApply(w, gate, counted, t, a).lane;
            Ruled(l') == (if a.PeerVerdict? then Ruled(t.lane) + [a.ok]
                          else if a.AskAborted? || (a.SendRequest? && t.dst.sentClose && t.lane.fwd.req.wantReply)
                          then Ruled(t.lane) + [false]
                          else Ruled(t.lane))
  {
    var l := t.lane;
    if a.Reply? { LogSnoc(l.log, (l.fwd.req, l.fwd.ok)); }
  }

  lemma HeardStep(w: Way, gate: bool, counted: bool, t: Triple, a: LaneAction)
    requires LaneEnabled(w, gate, t, a) && Heard(t) && ForwarderShape(w, t) && EndShape(t.dst)
    requires t.dst.closedByUs ==> t.lane.fwd.FwdDone?
    ensures Heard(LaneApply(w, gate, counted, t, a))
  {
    RuledStep(w, gate, counted, t, a);
  }

  lemma AnsweredStep(w: Way, gate: bool, counted: bool, t: Triple, a: LaneAction)
    requires LaneEnabled(w, gate, t, a) && Answered(t)
    ensures Answered(LaneApply(w, gate, counted, t, a))
  {
    hide DataOf, StderrOf, AsksOf, AnswersOf;
    LaneProjections(w, gate, counted, t, a);
    if a.Reply? {
      LogSnoc(t.lane.log, (t.lane.fwd.req, t.lane.fwd.ok));
    }
  }

  lemma LaneStep(w: Way, gate: bool, counted: bool, t: Triple, a: LaneAction)
    requires LaneEnabled(w, gate, t, a) && EndShape(t.dst) && LaneInv(w, counted, t)
    ensures LaneInv(w, counted, LaneApply(w, gate, counted, t, a))
  {
    PumpShapeStep(w, gate, counted, t, a);
    BytesStep(w, gate, counted, t, a);
    ForwarderShapeStep(w, gate, counted, t, a);
    AskedStep(w, gate, counted, t, a);
    HeardStep(w, gate, counted, t, a);
    AnsweredStep(w, gate, counted, t, a);
  }

  lemma HasStartGrows(rs: seq<Request>, r: Request)
    ensures HasStart(rs) ==> HasStart(rs + [r])
    ensures StartsProgram(r) ==> HasStart(rs + [r])
  {
    if HasStart(rs) {
      var q :| q in rs && StartsProgram(q);
      assert q in rs + [r];
    }
    assert r in rs + [r];
  }

  /** once' is the Once flag after the action: Mark sets it. */
  lemma GateStep(session: bool, once: bool, counted: bool, t: Triple, a: LaneAction)
    requires LaneEnabled(Down, once, t, a)
    requires ForwarderShape(Down, t) && GateShape(session, once, t)
    ensures GateShape(session, once || a.Mark?, LaneApply(Down, once, counted, t, a))
  {
    if a.Reply? {
      LogSnoc(t.lane.log, (t.lane.fwd.req, t.lane.fwd.ok));
      HasStartGrows(Requests(t.lane.log), t.lane.fwd.req);
    }
  }

  lemma StartBeforeEofGrows(t: seq<Msg>, m: Msg)
    requires StartBeforeEof(t)
    requires m.Eof? ==> HasStart(AsksOf(t))
    ensures StartBeforeEof(t + [m])
  {
    var t' := t + [m];
    forall j | 0 <= j < |t'| && t'[j].Eof?
      ensures exists i :: 0 <= i < j && t'[i].Ask? && StartsProgram(t'[i].request)
    {
      if j < |t| {
        assert t[j].Eof?;
        var i :| 0 <= i < j && t[i].Ask? && StartsProgram(t[i].request);
        assert t'[i] == t[i];
      } else {
        var r :| r in AsksOf(t) && StartsProgram(r);
        AskInTrace(t, r);
        var i :| 0 <= i < |t| && t[i] == Ask(r);
        assert t'[i] == Ask(r);
      }
    }
  }

  lemma EofGateStep(session: bool, once: bool, counted: bool, t: Triple, a: LaneAction)
    requires LaneEnabled(Down, once, t, a)
    requires PumpShape(counted, t) && ForwarderShape(Down, t) && Asked(t) && GateShape(session, once, t)
    requires EofGate(session, t)
    ensures EofGate(session, LaneApply(Down, once, counted, t, a))
  {
    if session && !Drained(t.src, t.lane) {
      if a.WriteChunk? {
        StartBeforeEofGrows(t.dst.trace, Data(t.lane.pump.buf[..a.n]));
      } else if a.SendEof? && !t.dst.sentClose {
        var r :| r in Requests(t.lane.log) && StartsProgram(r);
        assert r in AsksOf(t.dst.trace);
        StartBeforeEofGrows(t.dst.trace, Eof);
      } else if a.SendRequest? && !t.dst.sentClose {
        StartBeforeEofGrows(t.dst.trace, Ask(t.lane.fwd.req));
      } else if a.CloseFar? && !t.dst.sentClose {
        StartBeforeEofGrows(t.dst.trace, Close);
      }
    }
  }

  // ----- the whole bridge -----

  lemma LaneInit(w: Way, counted: bool)
    ensures LaneInv(w, counted, Triple(NewEnd, NewEnd, NewLane))
  {
    assert DataOf([]) == [] && AsksOf([]) == [] && AnswersOf([]) == [] && Requests([]) == [] && Verdicts([]) == [];
  }

  lemma InvInit(session: bool, counted: bool)
    ensures Inv(Init(session, counted))
  {
    hide LaneInv;
    LaneInit(Down, counted);
    LaneInit(Up, counted);
    assert StderrOf([]) == [];
  }

  /** Nothing a lane does to a channel end is undone. */
  predicate EndGrows(e: End, e': End) {
    && (e.sentEof ==> e'.sentEof) && (e.sentClose ==> e'.sentClose)
    && e'.peerEof == e.peerEof && e'.peerClosed == e.peerClosed
    && StderrOf(e'.trace) == StderrOf(e.trace)
  }

  lemma LaneEnds(w: Way, gate: bool, counted: bool, t: Triple, a: LaneAction)
    requires LaneEnabled(w, gate, t, a)
    ensures EndGrows(t.src, LaneApply(w, gate, counted, t, a).src)
    ensures EndGrows(t.dst, LaneApply(w, gate, counted, t, a).dst)
  {
    hide DataOf, StderrOf, AsksOf, AnswersOf;
    LaneProjections(w, gate, counted, t, a);
  }

  lemma ErrFromLane(s: Bridge, w: Way, a: LaneAction)
    requires ErrShape(s) && LaneEnabled(w, s.startCloses > 0, TripleOf(s, w), a)
    ensures ErrShape(Apply(s, InLane(w, a)))
  {
    hide LaneApply, LaneEnabled, StderrOf;
    LaneEnds(w, s.startCloses > 0, s.counted, TripleOf(s, w), a);
  }

  lemma EndsLane(s: Bridge, w: Way, a: LaneAction)
    requires Ends(s) && Lanes(s) && Enabled(s, InLane(w, a))
    ensures Ends(Apply(s, InLane(w, a)))
  {
    hide LaneApply, EndShape, LaneInv, LaneEnabled;
    EndsStep(w, s.startCloses > 0, s.counted, TripleOf(s, w), a);
  }

  lemma LanesLane(s: Bridge, w: Way, a: LaneAction)
    requires Ends(s) && Lanes(s) && Enabled(s, InLane(w, a))
    ensures Lanes(Apply(s, InLane(w, a)))
  {
    hide LaneApply, EndShape, LaneInv, LaneEnabled, Foreign;
    var gate, t := s.startCloses > 0, TripleOf(s, w);
    var s' := Apply(s, InLane(w, a));
    LaneStep(w, gate, s.counted, t, a);
    CrossForeign(w, gate, s.counted, t, a, LaneOf(s, Back(w)));
    ForeignKeeps(Back(w), s.counted, TripleOf(s, Back(w)), TripleOf(s', Back(w)));
  }

  lemma GatesDown(s: Bridge, a: LaneAction)
    requires Lanes(s) && Gates(s) && Enabled(s, InLane(Down, a))
    ensures Gates(Apply(s, InLane(Down, a)))
  {
    hide LaneApply, LaneEnabled, GateShape, EofGate, PumpShape, ForwarderShape, Bytes, Asked, Heard, Answered;
    GateStep(s.session, s.startOnce, s.counted, TripleOf(s, Down), a);
    EofGateStep(s.session, s.startOnce, s.counted, TripleOf(s, Down), a);
  }

  lemma InvLane(s: Bridge, w: Way, a: LaneAction)
    requires Inv(s) && Enabled(s, InLane(w, a))
    ensures Inv(Apply(s, InLane(w, a)))
  {
    hide Ends, Lanes, Gates, ErrShape, Apply;
    EndsLane(s, w, a);
    LanesLane(s, w, a);
    if w.Down? { GatesDown(s, a); } else { UpLeavesGate(s, a); }
    ErrFromLane(s, w, a);
  }

  /** The Up lane only adds answers to the backend's trace. */
  lemma UpLeavesGate(s: Bridge, a: LaneAction)
    requires Lanes(s) && Gates(s) && Enabled(s, InLane(Up, a))
    ensures Gates(Apply(s, InLane(Up, a)))
  {
    hide PumpShape, Bytes, Asked, Heard, Answered;
    hide StartBeforeEof;
    if StartBeforeEof(s.backend.trace) && a.Reply? {
      StartBeforeEofGrows(s.backend.trace, Answer(s.up.fwd.ok));
    }
  }

  /** A step that is foreign to both lanes keeps their invariants. */
  lemma LanesForeign(s: Bridge, s': Bridge)
    requires Lanes(s) && s'.counted == s.counted
    requires Foreign(TripleOf(s, Down), TripleOf(s', Down)) && Foreign(TripleOf(s, Up), TripleOf(s', Up))
    ensures Lanes(s')
  {
    hide LaneInv, Foreign;
    ForeignKeeps(Down, s.counted, TripleOf(s, Down), TripleOf(s', Down));
    ForeignKeeps(Up, s.counted, TripleOf(s, Up), TripleOf(s', Up));
  }

  lemma ErrReadStep(s: Bridge, n: nat)
    requires ErrShape(s) && ErrEnabled(s, ErrRead(n))
    ensures ErrShape(ErrApply(s, ErrRead(n)))
  {
    SplitTail(s.errRead, s.errUnread, n);
  }

  lemma ErrWriteStep(s: Bridge, n: nat)
    requires ErrShape(s) && ErrEnabled(s, ErrWrite(n))
    ensures ErrShape(ErrApply(s, ErrWrite(n)))
  {
    hide StderrOf;
    Snoc(s.client.trace, Stderr(s.errPump.buf[..n]));
    SplitTail(StderrOf(s.client.trace), s.errPump.buf, n);
  }

  lemma ErrStep(s: Bridge, a: ErrAction)
    requires ErrShape(s) && ErrEnabled(s, a)
    ensures ErrShape(ErrApply(s, a))
  {
    match a
    case ErrRead(n) => ErrReadStep(s, n);
    case ErrWrite(n) => ErrWriteStep(s, n);
    case PeerStderr(b) => Assoc(s.errRead, s.errUnread, b);
    case ErrWriteFail => assert s.errDropped + s.errPump.buf == s.errPump.buf;
    case ErrReadEnd =>
  }

  /** The stderr copier touches the client's channel only by adding stderr bytes. */
  lemma ErrEnds(s: Bridge, a: ErrAction)
    requires EndShape(s.client) && ErrEnabled(s, a)
    ensures EndShape(ErrApply(s, a).client)
    ensures DataOf(ErrApply(s, a).client.trace) == DataOf(s.client.trace)
    ensures AsksOf(ErrApply(s, a).client.trace) == AsksOf(s.client.trace)
    ensures AnswersOf(ErrApply(s, a).client.trace) == AnswersOf(s.client.trace)
  {
    if a.ErrWrite? {
      Snoc(s.client.trace, Stderr(s.errPump.buf[..a.n]));
      PutShape(s.client, Stderr(s.errPump.buf[..a.n]));
    }
  }

  lemma InvErr(s: Bridge, a: ErrAction)
    requires Inv(s) && Enabled(s, InErr(a))
    ensures Inv(Apply(s, InErr(a)))
  {
    hide Lanes, DataOf, StderrOf, AsksOf, AnswersOf, ErrShape, EndShape, StartBeforeEof, HasStart;
    var s' := Apply(s, InErr(a));
    ErrStep(s, a);
    ErrEnds(s, a);
    LanesForeign(s, s');
  }

  lemma HearCloseEnd(e: End)
    requires EndShape(e) && !e.peerClosed
    ensures EndShape(HearClose(e))
    ensures DataOf(HearClose(e).trace) == DataOf(e.trace)
    ensures StderrOf(HearClose(e).trace) == StderrOf(e.trace)
    ensures AsksOf(HearClose(e).trace) == AsksOf(e.trace)
    ensures AnswersOf(HearClose(e).trace) == AnswersOf(e.trace)
    ensures StartBeforeEof(e.trace) ==> StartBeforeEof(HearClose(e).trace)
  {
    if !e.sentClose {
      PutCloseShape(e, false);
      Snoc(e.trace, Close);
      if StartBeforeEof(e.trace) { StartBeforeEofGrows(e.trace, Close); }
    }
  }

  lemma InvPeerClose(s: Bridge, p: Party)
    requires Inv(s) && Enabled(s, PeerClose(p))
    ensures Inv(Apply(s, PeerClose(p)))
  {
    hide Lanes, DataOf, StderrOf, AsksOf, AnswersOf, EndShape, StartBeforeEof, HasStart;
    HearCloseEnd(Side(s, p));
    LanesForeign(s, Apply(s, PeerClose(p)));
  }

  lemma EndSame(e: End, e': End)
    requires EndShape(e) && e'.(peerEof := e.peerEof, window := e.window) == e
    ensures EndShape(e')
  {
  }

  lemma InvPeerEof(s: Bridge, p: Party)
    requires Inv(s) && Enabled(s, PeerEof(p))
    ensures Inv(Apply(s, PeerEof(p)))
  {
    hide Lanes, DataOf, StderrOf, AsksOf, AnswersOf, EndShape, StartBeforeEof, HasStart;
    EndSame(Side(s, p), Side(Apply(s, PeerEof(p)), p));
    LanesForeign(s, Apply(s, PeerEof(p)));
  }

  lemma InvPeerWindow(s: Bridge, p: Party, n: nat)
    requires Inv(s) && Enabled(s, PeerWindow(p, n))
    ensures Inv(Apply(s, PeerWindow(p, n)))
  {
    hide Lanes, DataOf, StderrOf, AsksOf, AnswersOf, EndShape, StartBeforeEof, HasStart;
    EndSame(Side(s, p), Side(Apply(s, PeerWindow(p, n)), p));
    LanesForeign(s, Apply(s, PeerWindow(p, n)));
  }

  lemma InvStep(s: Bridge, a: Action)
    requires Inv(s) && Enabled(s, a)
    ensures Inv(Apply(s, a))
  {
    hide Inv, Apply, Enabled;
    match a
    case InLane(w, act) => InvLane(s, w, act);
    case InErr(act) => InvErr(s, act);
    case PeerClose(p) => InvPeerClose(s, p);
    case PeerEof(p) => InvPeerEof(s, p);
    case PeerWindow(p, n) => InvPeerWindow(s, p, n);
  }

  lemma {:induction false} InvRun(s: Bridge, acts: seq<Action>, t: Bridge)
    requires Inv(s) && Runs(s, acts, t)
    ensures Inv(t)
    decreases |acts|
  {
    if acts != [] {
      var k := |acts| - 1;
      var m :| Runs(s, acts[..k], m) && Enabled(m, acts[k]) && Apply(m, acts[k]) == t;
      InvRun(s, acts[..k], m);
      InvStep(m, acts[k]);
    }
  }

  lemma InvReachable(t: Bridge)
    requires Reachable(t)
    ensures Inv(t)
  {
    var session, counted, acts :| Runs(Init(session, counted), acts, t);
    InvInit(session, counted);
    InvRun(Init(session, counted), acts, t);
  }
}
