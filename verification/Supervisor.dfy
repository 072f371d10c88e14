/**
 The reaping loop of PID 1 (cmd/supervisor/main.go).  What wait4 returns, and what
 the shutdown flag reads right after, is a sequence of events; a wait that never
 returns again is the end of that sequence.
 */
module Supervisor {
  import opened Wrappers

  datatype Status = Exited(code: int) | Signaled(signal: int) | Other

  datatype Wait = Reaped(pid: int, status: Status) | Interrupted | NoChildren | Failed

  datatype Event = Event(wait: Wait, down: bool)

  /** A child as it was started. */
  datatype Kid = Kid(name: string, pid: int)

  /** Blocked: the supervisor is still waiting when the events end. */
  datatype Outcome = Exit(code: int) | Blocked

  function WaitStatusToExit(st: Status): int {
    match st
    case Exited(code) => code
    case Signaled(sig) => 128 + sig
    case Other => 1
  }

  type Exits = seq<Option<int>>

  /** The first child with this pid that has not been reaped. */
  function Hit(kids: seq<Kid>, exits: Exits, pid: int): (h: Option<nat>)
    requires |exits| == |kids|
    ensures h.Some? ==> h.value < |kids| && exits[h.value].None? && kids[h.value].pid == pid
    ensures h.Some? ==> forall j :: 0 <= j < h.value ==> exits[j].Some? || kids[j].pid != pid
    ensures h.None? ==> forall j :: 0 <= j < |kids| ==> exits[j].Some? || kids[j].pid != pid
  {
    if kids == [] then None
    else if exits[0].None? && kids[0].pid == pid then Some(0)
    else match Hit(kids[1..], exits[1..], pid)
      case None => None
      case Some(h) => Some(h + 1)
  }

  function UserIndex(kids: seq<Kid>): (u: Option<nat>)
    ensures u.Some? ==> u.value < |kids| && kids[u.value].name == "user"
    ensures u.Some? ==> forall j :: 0 <= j < u.value ==> kids[j].name != "user"
    ensures u.None? ==> forall j :: 0 <= j < |kids| ==> kids[j].name != "user"
  {
    if kids == [] then None
    else if kids[0].name == "user" then Some(0)
    else match UserIndex(kids[1..])
      case None => None
      case Some(u) => Some(u + 1)
  }

  predicate UserDead(kids: seq<Kid>, exits: Exits)
    requires |exits| == |kids|
  {
    UserIndex(kids).Some? && exits[UserIndex(kids).value].Some?
  }

  predicate AllDead(exits: Exits) { forall j :: 0 <= j < |exits| ==> exits[j].Some? }

  /** The code of the first reaped child called user. */
  function ExitOfUser(kids: seq<Kid>, exits: Exits, fallback: int): int
    requires |exits| == |kids|
  {
    if kids == [] then fallback
    else if kids[0].name == "user" && exits[0].Some? then exits[0].value
    else ExitOfUser(kids[1..], exits[1..], fallback)
  }

  /** done: all are reaped, or a wait failed. */
  datatype Drained = Drained(done: bool, exits: Exits)

  function Drain(kids: seq<Kid>, exits: Exits, events: seq<Event>): (d: Drained)
    requires |exits| == |kids|
    ensures |d.exits| == |kids|
    decreases |events|
  {
    if AllDead(exits) then Drained(true, exits)
    else if events == [] then Drained(false, exits)
    else
      match events[0].wait
      case Interrupted => Drain(kids, exits, events[1..])
      case NoChildren => Drained(true, exits)
      case Failed => Drained(true, exits)
      case Reaped(pid, st) =>
        match Hit(kids, exits, pid)
        case None => Drain(kids, exits, events[1..])
        case Some(h) => Drain(kids, exits[h := Some(WaitStatusToExit(st))], events[1..])
  }

  /** The process groups of the children that still run. */
  function Remaining(kids: seq<Kid>, exits: Exits): seq<int>
    requires |exits| == |kids|
  {
    if kids == [] then []
    else
      var n := |kids| - 1;
      Remaining(kids[..n], exits[..n]) + if exits[n].None? then [kids[n].pid] else []
  }

  /** How the loop ends: outcome, the exits recorded, and whom it sent SIGTERM. */
  datatype Final = Final(outcome: Outcome, exits: Exits, killed: seq<int>)

  predicate Load(name: string, follow: bool) { name == "sshd" || (name == "user" && follow) }

  /** The loop, one event at a time. */
  function Run(kids: seq<Kid>, follow: bool, exits: Exits, first: Option<int>, events: seq<Event>): Final
    requires |exits| == |kids|
    decreases |events|
  {
    if events == [] then Final(Blocked, exits, [])
    else
      match events[0].wait
      case Interrupted => Run(kids, follow, exits, first, events[1..])
      case NoChildren => Final(Exit(if first.Some? then first.value else 0), exits, [])
      case Failed => Final(Exit(1), exits, [])
      case Reaped(pid, st) =>
        match Hit(kids, exits, pid)
        case None => Run(kids, follow, exits, first, events[1..])
        case Some(h) =>
          var code := WaitStatusToExit(st);
          var exits' := exits[h := Some(code)];
          var first' := if first.Some? then first else Some(code);
          if events[0].down then
            if UserDead(kids, exits') || AllDead(exits') then Final(Exit(ExitOfUser(kids, exits', first'.value)), exits', [])
            else Run(kids, follow, exits', first', events[1..])
          else if Load(kids[h].name, follow) then Terminated(kids, exits', code, events[1..])
          else Run(kids, follow, exits', first', events[1..])
  }

  /** Terminate the others, reap them, and exit with code. */
  function Terminated(kids: seq<Kid>, exits: Exits, code: int, events: seq<Event>): Final
    requires |exits| == |kids|
  {
    var d := Drain(kids, exits, events);
    Final(if d.done then Exit(code) else Blocked, d.exits, Remaining(kids, exits))
  }

  // ----- the program -----

  class Child {
    const name: string
    const pid: int
    var exit: Option<int>

    constructor (name: string, pid: int)
      ensures this.name == name && this.pid == pid && exit == None
    {
      this.name := name;
      this.pid := pid;
      exit := None;
    }
  }

  ghost function Kids(cs: seq<Child>): (ks: seq<Kid>)
    ensures |ks| == |cs| && forall j :: 0 <= j < |cs| ==> ks[j] == Kid(cs[j].name, cs[j].pid)
  {
    seq(|cs|, j requires 0 <= j < |cs| => Kid(cs[j].name, cs[j].pid))
  }

  ghost function ExitsOf(cs: seq<Child>): (es: Exits)
    reads cs
    ensures |es| == |cs| && forall j :: 0 <= j < |cs| ==> es[j] == cs[j].exit
  {
    seq(|cs|, j requires 0 <= j < |cs| reads cs => cs[j].exit)
  }

  predicate Distinct(cs: seq<Child>) { forall i, j :: 0 <= i < j < |cs| ==> cs[i] != cs[j] }

  method FindHit(cs: seq<Child>, pid: int) returns (h: Option<nat>)
    ensures h == Hit(Kids(cs), ExitsOf(cs), pid)
  {
    for i := 0 to |cs|
      invariant forall j :: 0 <= j < i ==> cs[j].exit.Some? || cs[j].pid != pid
    {
      if cs[i].exit.None? && cs[i].pid == pid { return Some(i); }
    }
    return None;
  }

  method UserReaped(cs: seq<Child>) returns (b: bool)
    ensures b == UserDead(Kids(cs), ExitsOf(cs))
  {
    for i := 0 to |cs|
      invariant forall j :: 0 <= j < i ==> cs[j].name != "user"
    {
      if cs[i].name == "user" { return cs[i].exit.Some?; }
    }
    return false;
  }

  method AllTrackedReaped(cs: seq<Child>) returns (b: bool)
    ensures b == AllDead(ExitsOf(cs))
  {
    for i := 0 to |cs|
      invariant forall j :: 0 <= j < i ==> cs[j].exit.Some?
    {
      if cs[i].exit.None? {
        assert ExitsOf(cs)[i].None?;
        return false;
      }
    }
    return true;
  }

  method UserExitOr(cs: seq<Child>, fallback: int) returns (code: int)
    ensures code == ExitOfUser(Kids(cs), ExitsOf(cs), fallback)
  {
    for i := 0 to |cs|
      invariant ExitOfUser(Kids(cs), ExitsOf(cs), fallback) == ExitOfUser(Kids(cs)[i..], ExitsOf(cs)[i..], fallback)
    {
      if cs[i].name == "user" && cs[i].exit.Some? { return cs[i].exit.value; }
      assert Kids(cs)[i..][1..] == Kids(cs)[i+1..] && ExitsOf(cs)[i..][1..] == ExitsOf(cs)[i+1..];
    }
    return fallback;
  }

  /** Signals the process groups of the children still running. */
  method KillRemaining(cs: seq<Child>) returns (killed: seq<int>)
    ensures killed == Remaining(Kids(cs), ExitsOf(cs))
  {
    killed := [];
    for i := 0 to |cs|
      invariant killed == Remaining(Kids(cs)[..i], ExitsOf(cs)[..i])
    {
      assert Kids(cs)[..i+1][..i] == Kids(cs)[..i] && ExitsOf(cs)[..i+1][..i] == ExitsOf(cs)[..i];
      if cs[i].exit.None? { killed := killed + [cs[i].pid]; }
    }
    assert Kids(cs)[..|cs|] == Kids(cs) && ExitsOf(cs)[..|cs|] == ExitsOf(cs);
  }

  lemma RecordExit(cs: seq<Child>, before: Exits, h: nat)
    requires Distinct(cs) && |before| == |cs| && h < |cs|
    requires forall j :: 0 <= j < |cs| && j != h ==> cs[j].exit == before[j]
    ensures ExitsOf(cs) == before[h := cs[h].exit]
  {
  }

  /** done is false when the drain is still waiting as the events end. */
  method DrainReapsBlocking(cs: seq<Child>, events: seq<Event>) returns (done: bool)
    requires Distinct(cs)
    modifies cs
    ensures Drained(done, ExitsOf(cs)) == Drain(Kids(cs), old(ExitsOf(cs)), events)
    ensures forall j :: 0 <= j < |cs| && old(cs[j].exit).Some? ==> cs[j].exit == old(cs[j].exit)
  {
    var i := 0;
    while true
      invariant 0 <= i <= |events|
      invariant Drain(Kids(cs), old(ExitsOf(cs)), events) == Drain(Kids(cs), ExitsOf(cs), events[i..])
      invariant forall j :: 0 <= j < |cs| && old(cs[j].exit).Some? ==> cs[j].exit == old(cs[j].exit)
      decreases |events| - i
    {
      var all := AllTrackedReaped(cs);
      if all { return true; }
      if i == |events| { return false; }
      var e := events[i];
      assert events[i..][1..] == events[i+1..];
      i := i + 1;
      if e.wait.Interrupted? { continue; }
      if e.wait.NoChildren? || e.wait.Failed? { return true; }
      var h := FindHit(cs, e.wait.pid);
      if h.Some? {
        ghost var before := ExitsOf(cs);
        cs[h.value].exit := Some(WaitStatusToExit(e.wait.status));
        RecordExit(cs, before, h.value);
      }
    }
  }

  /** Each child's exit is written at most once. */
  method WaitForChildren(cs: seq<Child>, follow: bool, events: seq<Event>) returns (r: Outcome, killed: seq<int>)
    requires Distinct(cs)
    modifies cs
    ensures Final(r, ExitsOf(cs), killed) == Run(Kids(cs), follow, old(ExitsOf(cs)), None, events)
    ensures forall j :: 0 <= j < |cs| && old(cs[j].exit).Some? ==> cs[j].exit == old(cs[j].exit)
  {
    killed := [];
    var firstTrackedExit: Option<int> := None;
    var i := 0;
    while i < |events|
      invariant 0 <= i <= |events|
      invariant Run(Kids(cs), follow, old(ExitsOf(cs)), None, events) ==
                Run(Kids(cs), follow, ExitsOf(cs), firstTrackedExit, events[i..])
      invariant forall j :: 0 <= j < |cs| && old(cs[j].exit).Some? ==> cs[j].exit == old(cs[j].exit)
    {
      var e := events[i];
      assert events[i..][1..] == events[i+1..];
      i := i + 1;
      if e.wait.Interrupted? { continue; }
      if e.wait.NoChildren? {
        return Exit(if firstTrackedExit.Some? then firstTrackedExit.value else 0), killed;
      }
      if e.wait.Failed? { return Exit(1), killed; }
      var h := FindHit(cs, e.wait.pid);
      if h.None? { continue; }
      var hit := cs[h.value];
      var code := WaitStatusToExit(e.wait.status);
      ghost var before := ExitsOf(cs);
      hit.exit := Some(code);
      RecordExit(cs, before, h.value);
      if firstTrackedExit.None? { firstTrackedExit := Some(code); }
      if e.down {
        var userGone := UserReaped(cs);
        var allGone := AllTrackedReaped(cs);
        if userGone || allGone {
          var final := UserExitOr(cs, firstTrackedExit.value);
          return Exit(final), killed;
        }
        continue;
      }
      if hit.name == "sshd" || (hit.name == "user" && follow) {
        killed := KillRemaining(cs);
        var done := DrainReapsBlocking(cs, events[i..]);
        if done { return Exit(code), killed; }
        return Blocked, killed;
      }
    }
    return Blocked, killed;
  }
}
