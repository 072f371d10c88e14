/**
 The per-channel bridge of the SSH gateway (internal/gateway/proxy.go, proxyChannel).

 Two channels meet here: the client's and the backend's.  Bytes and channel
 requests flow through two lanes, Down (client to backend) and Up (backend to
 client).  Each lane has a data pump and a request forwarder; a fifth goroutine
 copies stderr upwards.  Every goroutine is a program counter, every atomic
 action of a goroutine or of a peer is one Action, and a run is any sequence of
 enabled actions, so all interleavings are covered.

 What the SSH library does with the messages of a peer is part of the model:
 it answers a CLOSE with a CLOSE unless ours is already out (section 5.3 of
 RFC 4254), it lets buffered bytes and requests be consumed after the peer's
 CLOSE, it refuses data after our EOF and everything after our CLOSE.  A write that
 waits for window counts as refused from that moment too: the peer's CLOSE, which
 makes ours go out, releases it, and after a CLOSE of our own the peer owes one.

 Request queues are unbounded here.  golang.org/x/crypto/ssh bounds the queue of a
 channel at 16 and stops reading the connection while it is full; the results on
 deadlock and completion hold for runs in which no queue fills up.
 */
module SshBridge {

  newtype Byte = x: int | 0 <= x < 256

  datatype Request = Request(kind: string, wantReply: bool, payload: seq<Byte>)

  /** The requests that make a session's backend start a program. */
  predicate StartsProgram(r: Request) {
    r.kind == "shell" || r.kind == "exec" || r.kind == "subsystem"
  }

  datatype Msg =
    | Data(bytes: seq<Byte>)
    | Stderr(bytes: seq<Byte>)
    | Eof
    | Ask(request: Request)
    | Answer(ok: bool)
    | Close

  /** One SSH channel as the library sees it; trace lists what was sent to its peer. */
  datatype End = End(
    peerEof: bool,
    peerClosed: bool,
    sentEof: bool,
    sentClose: bool,
    closedByUs: bool,
    window: nat,
    trace: seq<Msg>)

  datatype Pump =
    | Reading
    | Writing(buf: seq<Byte>)
    | Gating
    | Shutting
    | Signalling
    | PumpDone

  datatype Forwarder =
    | Ranging
    | Sending(req: Request)
    | Awaiting(req: Request)
    | Replying(req: Request, ok: bool)
    | Marking
    | DrainMark
    | WaitPump
    | Closing
    | FwdDone

  /** sent, read, asked, taken and heard are histories: what the source peer put
      on the wire, what the goroutines consumed of it, and the verdicts the
      destination peer returned. */
  datatype Lane = Lane(
    sent: seq<Byte>,
    read: seq<Byte>,
    unread: seq<Byte>,
    dropped: seq<Byte>,
    pump: Pump,
    stops: nat,
    counter: nat,
    asked: seq<Request>,
    taken: seq<Request>,
    queue: seq<Request>,
    heard: seq<bool>,
    fwd: Forwarder,
    log: seq<(Request, bool)>)

  datatype Bridge = Bridge(
    session: bool,
    counted: bool,
    client: End,
    backend: End,
    down: Lane,
    up: Lane,
    errSent: seq<Byte>,
    errRead: seq<Byte>,
    errUnread: seq<Byte>,
    errDropped: seq<Byte>,
    errPump: Pump,
    startOnce: bool,
    startCloses: nat)

  datatype Way = Down | Up

  /** What can happen inside one lane: its source peer sends bytes or a request,
      its destination peer rules on a request, its pump or its forwarder moves. */
  datatype LaneAction =
    | PeerData(bytes: seq<Byte>)
    | PeerAsk(request: Request)
    | PeerVerdict(ok: bool)
    | ReadChunk(n: nat)
    | ReadEnd
    | WriteChunk(n: nat)
    | WriteFail
    | PassGate
    | SendEof
    | Signal
    | TakeRequest
    | Drain
    | SendRequest
    | AskAborted
    | Reply
    | Mark
    | AwaitPump
    | CloseFar

  datatype ErrAction =
    | PeerStderr(bytes: seq<Byte>)
    | ErrRead(n: nat)
    | ErrReadEnd
    | ErrWrite(n: nat)
    | ErrWriteFail

  datatype Party = Client | Backend

  datatype Action =
    | InLane(way: Way, act: LaneAction)
    | InErr(err: ErrAction)
    | PeerEof(party: Party)
    | PeerClose(party: Party)
    | PeerWindow(party: Party, n: nat)

  const NewEnd := End(false, false, false, false, false, 0, [])
  const NewLane := Lane([], [], [], [], Reading, 0, 0, [], [], [], [], Ranging, [])

  /** The bridge right after both channels are open. A channel that is no
      session has its start gate opened at once. */
  function Init(session: bool, counted: bool): Bridge {
    Bridge(session, counted, NewEnd, NewEnd, NewLane, NewLane, [], [], [], [], Reading,
           !session, if session then 0 else 1)
  }

  function LaneOf(s: Bridge, w: Way): Lane { if w.Down? then s.down else s.up }
  function Src(s: Bridge, w: Way): End { if w.Down? then s.client else s.backend }
  function Dst(s: Bridge, w: Way): End { if w.Down? then s.backend else s.client }
  function Side(s: Bridge, p: Party): End { if p.Client? then s.client else s.backend }
  function WithSide(s: Bridge, p: Party, e: End): Bridge {
    if p.Client? then s.(client := e) else s.(backend := e)
  }

  function Put(e: End, m: Msg): End { e.(trace := e.trace + [m]) }

  // ----- one lane -----

  /** A lane with the two channel ends it touches. */
  datatype Triple = Triple(src: End, dst: End, lane: Lane)

  predicate LaneEnabled(w: Way, gateOpen: bool, t: Triple, a: LaneAction) {
    var l := t.lane;
    match a
    case PeerData(b) => b != [] && !t.src.peerEof && !t.src.peerClosed
    case PeerAsk(_) => !t.src.peerClosed
    case PeerVerdict(_) => l.fwd.Awaiting? && !t.dst.peerClosed
    case ReadChunk(n) => l.pump.Reading? && 0 < n <= |l.unread|
    case ReadEnd => l.pump.Reading? && l.unread == [] && (t.src.peerEof || t.src.peerClosed)
    case WriteChunk(n) =>
      l.pump.Writing? && !t.dst.sentEof && !t.dst.sentClose && 0 < n <= |l.pump.buf| && n <= t.dst.window
    case WriteFail => l.pump.Writing? && (t.dst.sentEof || t.dst.sentClose)
    case PassGate => l.pump.Gating? && (w.Down? ==> gateOpen)
    case SendEof => l.pump.Shutting?
    case Signal => l.pump.Signalling?
    case TakeRequest => l.fwd.Ranging? && l.queue != []
    case Drain => l.fwd.Ranging? && l.queue == [] && t.src.peerClosed
    case SendRequest => l.fwd.Sending?
    case AskAborted => l.fwd.Awaiting? && t.dst.peerClosed
    case Reply => l.fwd.Replying?
    case Mark => l.fwd.Marking? || l.fwd.DrainMark?
    case AwaitPump => l.fwd.WaitPump? && l.stops > 0
    case CloseFar => l.fwd.Closing?
  }

  function AfterReply(w: Way, r: Request): Forwarder {
    if w.Down? && StartsProgram(r) then Marking else Ranging
  }

  function LaneApply(w: Way, gateOpen: bool, counted: bool, t: Triple, a: LaneAction): Triple
    requires LaneEnabled(w, gateOpen, t, a)
  {
    var l := t.lane;
    match a
    case PeerData(b) => t.(lane := l.(sent := l.sent + b, unread := l.unread + b))
    case PeerAsk(r) => t.(lane := l.(asked := l.asked + [r], queue := l.queue + [r]))
    case PeerVerdict(ok) => t.(lane := l.(heard := l.heard + [ok], fwd := Replying(l.fwd.req, ok)))
    case ReadChunk(n) =>
      t.(lane := l.(pump := Writing(l.unread[..n]), read := l.read + l.unread[..n], unread := l.unread[n..],
                    counter := l.counter + if counted then n else 0))
    case ReadEnd => t.(lane := l.(pump := Gating))
    case WriteChunk(n) =>
      var rest := l.pump.buf[n..];
      t.(lane := l.(pump := if rest == [] then Reading else Writing(rest)),
         dst := Put(t.dst, Data(l.pump.buf[..n])).(window := t.dst.window - n))
    case WriteFail => t.(lane := l.(dropped := l.dropped + l.pump.buf, pump := Gating))
    case PassGate => t.(lane := l.(pump := Shutting))
    case SendEof =>
      t.(lane := l.(pump := Signalling),
         dst := (if t.dst.sentClose then t.dst else Put(t.dst, Eof)).(sentEof := true))
    case Signal => t.(lane := l.(pump := PumpDone, stops := l.stops + 1))
    case TakeRequest => 
      t.(lane := l.(fwd := Sending(l.queue[0]), taken := l.taken + [l.queue[0]], queue := l.queue[1..]))
    case Drain => t.(lane := l.(fwd := if w.Down? then DrainMark else WaitPump))
    case SendRequest =>
      var r := l.fwd.req;
      if t.dst.sentClose then
        t.(lane := l.(fwd := Replying(r, false)))
      else
        t.(lane := l.(fwd := if r.wantReply then Awaiting(r) else Replying(r, false)),
           dst := Put(t.dst, Ask(r)))
    case AskAborted => t.(lane := l.(fwd := Replying(l.fwd.req, false)))
    case Reply =>
      var r := l.fwd.req;
      t.(lane := l.(log := l.log + [(r, l.fwd.ok)], fwd := AfterReply(w, r)),
         src := if r.wantReply && !t.src.sentClose then Put(t.src, Answer(l.fwd.ok)) else t.src)
    case Mark => t.(lane := l.(fwd := if l.fwd.Marking? then Ranging else WaitPump))
    case AwaitPump => t.(lane := l.(fwd := Closing))
    case CloseFar =>
      t.(lane := l.(fwd := FwdDone),
         dst := if t.dst.sentClose then t.dst
                else Put(t.dst, Close).(sentClose := true, closedByUs := true))
  }

  // ----- the whole bridge -----

  function TripleOf(s: Bridge, w: Way): Triple { Triple(Src(s, w), Dst(s, w), LaneOf(s, w)) }

  function WithTriple(s: Bridge, w: Way, t: Triple): Bridge {
    if w.Down? then s.(client := t.src, backend := t.dst, down := t.lane)
    else s.(backend := t.src, client := t.dst, up := t.lane)
  }

  /** sync.Once around close(startProgSent). */
  function MarkStart(s: Bridge): Bridge {
    if s.startOnce then s else s.(startOnce := true, startCloses := s.startCloses + 1)
  }

  /** The library's reaction to a peer's CLOSE: ours goes out unless it already has. */
  function HearClose(e: End): End {
    if e.sentClose then e.(peerClosed := true)
    else Put(e, Close).(peerClosed := true, sentClose := true)
  }

  predicate ErrEnabled(s: Bridge, a: ErrAction) {
    match a
    case PeerStderr(b) => b != [] && !s.backend.peerEof && !s.backend.peerClosed
    case ErrRead(n) => s.errPump.Reading? && 0 < n <= |s.errUnread|
    case ErrReadEnd => s.errPump.Reading? && s.errUnread == [] && (s.backend.peerEof || s.backend.peerClosed)
    case ErrWrite(n) =>
      s.errPump.Writing? && !s.client.sentEof && !s.client.sentClose &&
      0 < n <= |s.errPump.buf| && n <= s.client.window
    case ErrWriteFail => s.errPump.Writing? && (s.client.sentEof || s.client.sentClose)
  }

  function ErrApply(s: Bridge, a: ErrAction): Bridge
    requires ErrEnabled(s, a)
  {
    match a
    case PeerStderr(b) => s.(errSent := s.errSent + b, errUnread := s.errUnread + b)
    case ErrRead(n) =>
      s.(errPump := Writing(s.errUnread[..n]), errRead := s.errRead + s.errUnread[..n],
         errUnread := s.errUnread[n..])
    case ErrReadEnd => s.(errPump := PumpDone)
    case ErrWrite(n) =>
      var rest := s.errPump.buf[n..];
      s.(errPump := if rest == [] then Reading else Writing(rest),
         client := Put(s.client, Stderr(s.errPump.buf[..n])).(window := s.client.window - n))
    case ErrWriteFail => s.(errDropped := s.errDropped + s.errPump.buf, errPump := PumpDone)
  }

  predicate Enabled(s: Bridge, a: Action) {
    match a
    case InLane(w, act) => LaneEnabled(w, s.startCloses > 0, TripleOf(s, w), act)
    case InErr(act) => ErrEnabled(s, act)
    case PeerEof(p) => !Side(s, p).peerEof && !Side(s, p).peerClosed
    case PeerClose(p) => !Side(s, p).peerClosed
    case PeerWindow(p, n) => n > 0 && !Side(s, p).peerClosed
  }

  function Apply(s: Bridge, a: Action): Bridge
    requires Enabled(s, a)
  {
    match a
    case InLane(w, act) =>
      var s1 := WithTriple(s, w, LaneApply(w, s.startCloses > 0, s.counted, TripleOf(s, w), act));
      if act.Mark? then MarkStart(s1) else s1
    case InErr(act) => ErrApply(s, act)
    case PeerEof(p) => WithSide(s, p, Side(s, p).(peerEof := true))
    case PeerClose(p) => WithSide(s, p, HearClose(Side(s, p)))
    case PeerWindow(p, n) => WithSide(s, p, Side(s, p).(window := Side(s, p).window + n))
  }

  /** t is reached from s by running the actions in order. */
  ghost predicate Runs(s: Bridge, acts: seq<Action>, t: Bridge)
    decreases |acts|
  {
    if acts == [] then s == t
    else
      var k := |acts| - 1;
      exists m :: Runs(s, acts[..k], m) && Enabled(m, acts[k]) && Apply(m, acts[k]) == t
  }

  ghost predicate Reachable(t: Bridge) {
    exists session, counted, acts :: Runs(Init(session, counted), acts, t)
  }

  // ----- what a trace carries -----

  function DataOf(t: seq<Msg>): seq<Byte> {
    if t == [] then [] else DataOf(t[..|t|-1]) + if t[|t|-1].Data? then t[|t|-1].bytes else []
  }

  function StderrOf(t: seq<Msg>): seq<Byte> {
    if t == [] then [] else StderrOf(t[..|t|-1]) + if t[|t|-1].Stderr? then t[|t|-1].bytes else []
  }

  function AsksOf(t: seq<Msg>): seq<Request> {
    if t == [] then [] else AsksOf(t[..|t|-1]) + if t[|t|-1].Ask? then [t[|t|-1].request] else []
  }

  function AnswersOf(t: seq<Msg>): seq<bool> {
    if t == [] then [] else AnswersOf(t[..|t|-1]) + if t[|t|-1].Answer? then [t[|t|-1].ok] else []
  }

  lemma Snoc(t: seq<Msg>, m: Msg)
    ensures DataOf(t + [m]) == DataOf(t) + if m.Data? then m.bytes else []
    ensures StderrOf(t + [m]) == StderrOf(t) + if m.Stderr? then m.bytes else []
    ensures AsksOf(t + [m]) == AsksOf(t) + if m.Ask? then [m.request] else []
    ensures AnswersOf(t + [m]) == AnswersOf(t) + if m.Answer? then [m.ok] else []
  {
    assert (t + [m])[..|t|] == t;
  }

  lemma {:induction false} AskInTrace(t: seq<Msg>, r: Request)
    requires r in AsksOf(t)
    ensures exists i :: 0 <= i < |t| && t[i] == Ask(r)
  {
    var k := |t| - 1;
    if t[k] == Ask(r) {
    } else {
      AskInTrace(t[..k], r);
      var i :| 0 <= i < k && t[..k][i] == Ask(r);
      assert t[i] == Ask(r);
    }
  }

  function Requests(log: seq<(Request, bool)>): seq<Request> {
    if log == [] then [] else Requests(log[..|log|-1]) + [log[|log|-1].0]
  }

  /** The verdicts of the logged requests that asked for one. */
  function Verdicts(log: seq<(Request, bool)>): seq<bool> {
    if log == [] then []
    else Verdicts(log[..|log|-1]) + if log[|log|-1].0.wantReply then [log[|log|-1].1] else []
  }

  lemma LogSnoc(log: seq<(Request, bool)>, e: (Request, bool))
    ensures Requests(log + [e]) == Requests(log) + [e.0]
    ensures Verdicts(log + [e]) == Verdicts(log) + if e.0.wantReply then [e.1] else []
  {
    assert (log + [e])[..|log|] == log;
  }
}
