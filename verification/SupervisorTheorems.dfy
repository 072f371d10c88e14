/** What exit code PID 1 returns, as a property of the whole trace of waits. */
module SupervisorTheorems {
  import opened Wrappers
  import opened Supervisor

  // ----- the trace, declaratively -----

  /** The code of the first death of pid among the first n events. */
  function CodeAt(events: seq<Event>, pid: int, n: nat): Option<int>
    requires n <= |events|
  {
    if n == 0 then None
    else if CodeAt(events, pid, n - 1).Some? then CodeAt(events, pid, n - 1)
    else if events[n-1].wait.Reaped? && events[n-1].wait.pid == pid then
      match events[n-1].wait.status
      case Exited(code) => Some(code)
      case Signaled(sig) => Some(128 + sig)
      case Other => Some(1)
    else None
  }

  predicate Tracked(kids: seq<Kid>, pid: int) { exists j :: 0 <= j < |kids| && kids[j].pid == pid }

  /** The code of the first death of any tracked child. */
  function FirstCode(kids: seq<Kid>, events: seq<Event>, n: nat): Option<int>
    requires n <= |events|
  {
    if n == 0 then None
    else if FirstCode(kids, events, n - 1).Some? then FirstCode(kids, events, n - 1)
    else if events[n-1].wait.Reaped? && Tracked(kids, events[n-1].wait.pid) then
      match events[n-1].wait.status
      case Exited(code) => Some(code)
      case Signaled(sig) => Some(128 + sig)
      case Other => Some(1)
    else None
  }

  predicate DistinctPids(kids: seq<Kid>) { forall i, j :: 0 <= i < j < |kids| ==> kids[i].pid != kids[j].pid }

  /** Event i is the death of child k. */
  predicate Dies(kids: seq<Kid>, events: seq<Event>, i: nat, k: nat)
    requires i < |events|
  {
    k < |kids| && events[i].wait.Reaped? && events[i].wait.pid == kids[k].pid && CodeAt(events, kids[k].pid, i).None?
  }

  predicate AllGone(kids: seq<Kid>, events: seq<Event>, n: nat)
    requires n <= |events|
  {
    forall j :: 0 <= j < |kids| ==> CodeAt(events, kids[j].pid, n).Some?
  }

  predicate UserGone(kids: seq<Kid>, events: seq<Event>, n: nat)
    requires n <= |events|
  {
    UserIndex(kids).Some? && CodeAt(events, kids[UserIndex(kids).value].pid, n).Some?
  }

  /** Event i ends the wait: a failed wait; under shutdown a tracked death that
      leaves the user command or everything reaped; otherwise the death of sshd, or
      of the user command when it is followed. */
  ghost predicate Decisive(kids: seq<Kid>, follow: bool, events: seq<Event>, i: nat)
    requires i < |events|
  {
    events[i].wait.NoChildren? || events[i].wait.Failed? ||
    exists k: nat :: Dies(kids, events, i, k) &&
      if events[i].down then UserGone(kids, events, i + 1) || AllGone(kids, events, i + 1)
      else kids[k].name == "sshd" || (kids[k].name == "user" && follow)
  }

  ghost predicate Undecided(kids: seq<Kid>, follow: bool, events: seq<Event>, n: nat)
    requires n <= |events|
  {
    forall i :: 0 <= i < n ==> !Decisive(kids, follow, events, i)
  }

  /** What the decisive event i makes of it. */
  function Verdict(kids: seq<Kid>, events: seq<Event>, i: nat): int
    requires i < |events|
  {
    match events[i].wait
    case NoChildren => if FirstCode(kids, events, i).Some? then FirstCode(kids, events, i).value else 0
    case Failed => 1
    case Interrupted => 1
    case Reaped(_, st) =>
      if events[i].down then
        if UserGone(kids, events, i + 1) then CodeAt(events, kids[UserIndex(kids).value].pid, i + 1).value
        else if FirstCode(kids, events, i + 1).Some? then FirstCode(kids, events, i + 1).value else 1
      else
        match st
        case Exited(code) => code
        case Signaled(sig) => 128 + sig
        case Other => 1
  }

  // ----- the loop follows the trace -----

  function ExitsAt(kids: seq<Kid>, events: seq<Event>, n: nat): (es: Exits)
    requires n <= |events|
    ensures |es| == |kids| && forall j :: 0 <= j < |kids| ==> es[j] == CodeAt(events, kids[j].pid, n)
  {
    seq(|kids|, j requires 0 <= j < |kids| => CodeAt(events, kids[j].pid, n))
  }

  lemma HitIsDeath(kids: seq<Kid>, events: seq<Event>, i: nat)
    requires DistinctPids(kids) && i < |events| && events[i].wait.Reaped?
    ensures var h := Hit(kids, ExitsAt(kids, events, i), events[i].wait.pid);
      && (h.Some? ==> Dies(kids, events, i, h.value))
      && (h.Some? ==>
            ExitsAt(kids, events, i + 1) == ExitsAt(kids, events, i)[h.value := Some(WaitStatusToExit(events[i].wait.status))])
      && (h.None? ==> (forall k: nat :: !Dies(kids, events, i, k)) && ExitsAt(kids, events, i + 1) == ExitsAt(kids, events, i))
  {
    var h := Hit(kids, ExitsAt(kids, events, i), events[i].wait.pid);
    if h.Some? {
      forall j | 0 <= j < |kids| && j != h.value
        ensures kids[j].pid != kids[h.value].pid
      {
      }
    }
  }

  /** Somebody tracked has died as soon as anybody has. */
  lemma {:induction false} FirstCodeKnown(kids: seq<Kid>, events: seq<Event>, n: nat, k: nat)
    requires n <= |events| && k < |kids| && CodeAt(events, kids[k].pid, n).Some?
    ensures FirstCode(kids, events, n).Some?
  {
    if CodeAt(events, kids[k].pid, n - 1).Some? { FirstCodeKnown(kids, events, n - 1, k); }
  }

  lemma FirstCodeStep(kids: seq<Kid>, events: seq<Event>, i: nat)
    requires DistinctPids(kids) && i < |events|
    ensures (exists k: nat :: Dies(kids, events, i, k)) && FirstCode(kids, events, i).None? ==>
      FirstCode(kids, events, i + 1) == Some(WaitStatusToExit(events[i].wait.status))
    ensures !(exists k: nat :: Dies(kids, events, i, k)) || FirstCode(kids, events, i).Some? ==>
      FirstCode(kids, events, i + 1) == FirstCode(kids, events, i)
  {
    if FirstCode(kids, events, i).None? && events[i].wait.Reaped? && Tracked(kids, events[i].wait.pid) {
      var k :| 0 <= k < |kids| && kids[k].pid == events[i].wait.pid;
      if CodeAt(events, kids[k].pid, i).Some? { FirstCodeKnown(kids, events, i, k); }
      assert Dies(kids, events, i, k);
    }
  }

  lemma {:induction false} ExitOfUserIs(kids: seq<Kid>, exits: Exits, fallback: int)
    requires |exits| == |kids|
    requires forall i, j :: 0 <= i < j < |kids| ==> !(kids[i].name == "user" && kids[j].name == "user")
    ensures UserDead(kids, exits) ==> ExitOfUser(kids, exits, fallback) == exits[UserIndex(kids).value].value
    ensures !UserDead(kids, exits) ==> ExitOfUser(kids, exits, fallback) == fallback
  {
    if kids != [] {
      ExitOfUserIs(kids[1..], exits[1..], fallback);
      var u := UserIndex(kids[1..]);
      assert u.Some? ==> kids[u.value + 1] == kids[1..][u.value];
    }
  }

  /** One child is the user command, if any is. */
  predicate OneUser(kids: seq<Kid>) {
    forall i, j :: 0 <= i < j < |kids| ==> !(kids[i].name == "user" && kids[j].name == "user")
  }

  /** One event that decides nothing moves the loop one event on. */
  lemma Advance(kids: seq<Kid>, follow: bool, events: seq<Event>, n: nat)
    requires DistinctPids(kids) && n < |events| && !Decisive(kids, follow, events, n)
    ensures Run(kids, follow, ExitsAt(kids, events, n), FirstCode(kids, events, n), events[n..]) ==
            Run(kids, follow, ExitsAt(kids, events, n + 1), FirstCode(kids, events, n + 1), events[n+1..])
  {
    assert events[n..][1..] == events[n+1..];
    FirstCodeStep(kids, events, n);
    if events[n].wait.Reaped? {
      HitIsDeath(kids, events, n);
      var h := Hit(kids, ExitsAt(kids, events, n), events[n].wait.pid);
      if h.Some? { Undying(kids, follow, events, n, h.value); }
    } else {
      assert ExitsAt(kids, events, n + 1) == ExitsAt(kids, events, n);
    }
  }

  lemma Undying(kids: seq<Kid>, follow: bool, events: seq<Event>, n: nat, h: nat)
    requires n < |events| && !Decisive(kids, follow, events, n) && Dies(kids, events, n, h)
    ensures events[n].down ==> !UserDead(kids, ExitsAt(kids, events, n + 1)) && !AllDead(ExitsAt(kids, events, n + 1))
    ensures !events[n].down ==> !Load(kids[h].name, follow)
  {
  }

  /** The decisive event ends the loop with its verdict, once the drain ends. */
  lemma Decide(kids: seq<Kid>, follow: bool, events: seq<Event>, n: nat)
    requires DistinctPids(kids) && OneUser(kids) && n < |events| && Decisive(kids, follow, events, n)
    ensures Run(kids, follow, ExitsAt(kids, events, n), FirstCode(kids, events, n), events[n..]).outcome ==
      if events[n].wait.Reaped? && !events[n].down && !Drain(kids, ExitsAt(kids, events, n + 1), events[n+1..]).done then Blocked
      else Exit(Verdict(kids, events, n))
    ensures Run(kids, follow, ExitsAt(kids, events, n), FirstCode(kids, events, n), events[n..]).killed ==
      if events[n].wait.Reaped? && !events[n].down then Remaining(kids, ExitsAt(kids, events, n + 1)) else []
  {
    hide Drain;
    assert events[n..][1..] == events[n+1..];
    FirstCodeStep(kids, events, n);
    if events[n].wait.Reaped? {
      HitIsDeath(kids, events, n);
      var k: nat :| Dies(kids, events, n, k);
      ExitOfUserIs(kids, ExitsAt(kids, events, n + 1), if FirstCode(kids, events, n + 1).Some? then FirstCode(kids, events, n + 1).value else 1);
      SameDeath(kids, events, n, k, Hit(kids, ExitsAt(kids, events, n), events[n].wait.pid));
    }
  }

  lemma SameDeath(kids: seq<Kid>, events: seq<Event>, n: nat, k: nat, h: Option<nat>)
    requires DistinctPids(kids) && n < |events| && Dies(kids, events, n, k) && h.Some? && Dies(kids, events, n, h.value)
    ensures h.value == k
  {
  }

  lemma {:induction false} Follow(kids: seq<Kid>, follow: bool, events: seq<Event>, n: nat)
    requires DistinctPids(kids) && n <= |events| && Undecided(kids, follow, events, n)
    ensures Run(kids, follow, ExitsAt(kids, events, 0), None, events) ==
            Run(kids, follow, ExitsAt(kids, events, n), FirstCode(kids, events, n), events[n..])
  {
    if n == 0 {
      assert events[0..] == events;
    } else {
      Follow(kids, follow, events, n - 1);
      Advance(kids, follow, events, n - 1);
    }
  }

  function Fresh(kids: seq<Kid>): Exits { seq(|kids|, _ => None) }

  /** For every stream of waits the supervisor's exit code is the verdict of the
      first decisive event; with none it waits for ever, as it does when a drain
      never sees its last child. */
  lemma ExitCodeExact(kids: seq<Kid>, follow: bool, events: seq<Event>, i: nat)
    requires DistinctPids(kids) && OneUser(kids) && i <= |events| && Undecided(kids, follow, events, i)
    requires i < |events| ==> Decisive(kids, follow, events, i)
    ensures Run(kids, follow, Fresh(kids), None, events).outcome ==
      if i == |events| then Blocked
      else if events[i].wait.Reaped? && !events[i].down && !Drain(kids, ExitsAt(kids, events, i + 1), events[i+1..]).done then Blocked
      else Exit(Verdict(kids, events, i))
    ensures Run(kids, follow, Fresh(kids), None, events).killed ==
      if i < |events| && events[i].wait.Reaped? && !events[i].down then Remaining(kids, ExitsAt(kids, events, i + 1)) else []
  {
    hide Run, Drain, Decisive, Verdict;
    assert Fresh(kids) == ExitsAt(kids, events, 0);
    Follow(kids, follow, events, i);
    if i < |events| {
      Decide(kids, follow, events, i);
    } else {
      assert events[i..] == [];
      RunEnd(kids, follow, ExitsAt(kids, events, i), FirstCode(kids, events, i));
    }
  }

  lemma RunEnd(kids: seq<Kid>, follow: bool, exits: Exits, first: Option<int>)
    requires |exits| == |kids|
    ensures Run(kids, follow, exits, first, []) == Final(Blocked, exits, [])
  {
  }

  // ----- what is recorded -----

  /** Whom the supervisor terminates: exactly the children not yet reaped. */
  lemma {:induction false} RemainingExact(kids: seq<Kid>, exits: Exits)
    requires |exits| == |kids|
    ensures forall p :: p in Remaining(kids, exits) <==> exists j :: 0 <= j < |kids| && kids[j].pid == p && exits[j].None?
  {
    if kids != [] {
      var n := |kids| - 1;
      RemainingExact(kids[..n], exits[..n]);
      forall p
        ensures p in Remaining(kids, exits) <==> exists j :: 0 <= j < |kids| && kids[j].pid == p && exits[j].None?
      {
        if j :| 0 <= j < |kids| && kids[j].pid == p && exits[j].None? {
          if j < n { assert kids[..n][j] == kids[j] && exits[..n][j] == exits[j]; }
        }
      }
    }
  }

  /** An exit, once known, stays. */
  lemma {:induction false} CodeStays(events: seq<Event>, pid: int, n: nat, m: nat)
    requires n <= m <= |events| && CodeAt(events, pid, n).Some?
    ensures CodeAt(events, pid, m) == CodeAt(events, pid, n)
    decreases m
  {
    if n < m { CodeStays(events, pid, n, m - 1); }
  }

  /** These exits are first deaths of the trace. */
  predicate Recorded(kids: seq<Kid>, events: seq<Event>, exits: Exits) {
    |exits| == |kids| && forall j :: 0 <= j < |kids| && exits[j].Some? ==> exits[j] == CodeAt(events, kids[j].pid, |events|)
  }

  lemma ExitsAtRecorded(kids: seq<Kid>, events: seq<Event>, n: nat)
    requires n <= |events|
    ensures Recorded(kids, events, ExitsAt(kids, events, n))
  {
    forall j | 0 <= j < |kids| && CodeAt(events, kids[j].pid, n).Some?
      ensures CodeAt(events, kids[j].pid, n) == CodeAt(events, kids[j].pid, |events|)
    {
      CodeStays(events, kids[j].pid, n, |events|);
    }
  }

  lemma {:induction false} DrainRecords(kids: seq<Kid>, events: seq<Event>, n: nat)
    requires DistinctPids(kids) && n <= |events|
    ensures Recorded(kids, events, Drain(kids, ExitsAt(kids, events, n), events[n..]).exits)
    decreases |events| - n
  {
    ExitsAtRecorded(kids, events, n);
    if n < |events| {
      assert events[n..][1..] == events[n+1..];
      DrainRecords(kids, events, n + 1);
      if events[n].wait.Reaped? { HitIsDeath(kids, events, n); }
      if events[n].wait.Interrupted? { assert ExitsAt(kids, events, n + 1) == ExitsAt(kids, events, n); }
    }
  }

  lemma NobodyDies(kids: seq<Kid>, events: seq<Event>, n: nat)
    requires n < |events| && !events[n].wait.Reaped?
    ensures ExitsAt(kids, events, n + 1) == ExitsAt(kids, events, n)
    ensures FirstCode(kids, events, n + 1) == FirstCode(kids, events, n)
  {
  }

  /** Each recorded exit is the code of that child's first death in the trace:
      written once, never by an orphan, never overwritten by a recycled pid. */
  lemma {:induction false} ExitsAreFirstDeaths(kids: seq<Kid>, follow: bool, events: seq<Event>, n: nat)
    requires DistinctPids(kids) && n <= |events|
    ensures Recorded(kids, events, Run(kids, follow, ExitsAt(kids, events, n), FirstCode(kids, events, n), events[n..]).exits)
    decreases |events| - n
  {
    hide Drain, Recorded, UserDead, AllDead, ExitOfUser, Remaining, Dies, CodeAt, FirstCode;
    ExitsAtRecorded(kids, events, n);
    if n < |events| {
      assert events[n..][1..] == events[n+1..];
      ExitsAtRecorded(kids, events, n + 1);
      ExitsAreFirstDeaths(kids, follow, events, n + 1);
      DrainRecords(kids, events, n + 1);
      FirstCodeStep(kids, events, n);
      if events[n].wait.Reaped? { HitIsDeath(kids, events, n); }
      if events[n].wait.Interrupted? { NobodyDies(kids, events, n); }
    }
  }

  // ----- draining -----

  /** The drain ends exactly when some wait fails or every tracked child has been
      reaped; nothing else can end it and nothing can keep it from ending then. */
  lemma {:induction false} DrainsIff(kids: seq<Kid>, events: seq<Event>, n: nat)
    requires DistinctPids(kids) && n <= |events|
    ensures Drain(kids, ExitsAt(kids, events, n), events[n..]).done <==>
      exists m :: n <= m <= |events| && DrainPoint(kids, events, m)
    decreases |events| - n
  {
    var rest := events[n..];
    if AllDead(ExitsAt(kids, events, n)) {
      assert DrainPoint(kids, events, n);
    } else if n < |events| {
      assert rest[1..] == events[n+1..];
      DrainsIff(kids, events, n + 1);
      if events[n].wait.Reaped? { HitIsDeath(kids, events, n); }
      if events[n].wait.Interrupted? { assert ExitsAt(kids, events, n + 1) == ExitsAt(kids, events, n); }
      if events[n].wait.NoChildren? || events[n].wait.Failed? { assert DrainPoint(kids, events, n); }
      NotYet(kids, events, n);
    } else {
      NotYet(kids, events, n);
    }
  }

  predicate DrainPoint(kids: seq<Kid>, events: seq<Event>, m: nat)
    requires m <= |events|
  {
    AllGone(kids, events, m) || (m < |events| && (events[m].wait.NoChildren? || events[m].wait.Failed?))
  }

  lemma NotYet(kids: seq<Kid>, events: seq<Event>, n: nat)
    requires n <= |events| && !AllDead(ExitsAt(kids, events, n))
    ensures DrainPoint(kids, events, n) ==> n < |events| && (events[n].wait.NoChildren? || events[n].wait.Failed?)
  {
  }

  // ----- orphans -----

  predicate ReapedIn(a: seq<Event>, pid: int) { exists i :: 0 <= i < |a| && a[i].wait.Reaped? && a[i].wait.pid == pid }

  /** After the events a, event e reaps nobody tracked: it is an interrupted wait, an
      orphan, or a process that got the pid of a child reaped before. */
  predicate Harmless(kids: seq<Kid>, exits: Exits, a: seq<Event>, e: Event)
    requires |exits| == |kids|
  {
    e.wait.Interrupted? ||
    (e.wait.Reaped? && forall j :: 0 <= j < |kids| && kids[j].pid == e.wait.pid ==> exits[j].Some? || ReapedIn(a, e.wait.pid))
  }

  lemma HarmlessRest(kids: seq<Kid>, exits: Exits, a: seq<Event>, e: Event)
    requires |exits| == |kids| && DistinctPids(kids) && a != [] && Harmless(kids, exits, a, e)
    requires a[0].wait.Interrupted? || a[0].wait.Reaped?
    ensures a[0].wait.Interrupted? ==> Harmless(kids, exits, a[1..], e)
    ensures a[0].wait.Reaped? && Hit(kids, exits, a[0].wait.pid).None? ==> Harmless(kids, exits, a[1..], e)
    ensures a[0].wait.Reaped? && Hit(kids, exits, a[0].wait.pid).Some? ==>
      forall code :: Harmless(kids, exits[Hit(kids, exits, a[0].wait.pid).value := Some(code)], a[1..], e)
  {
    if e.wait.Reaped? && ReapedIn(a, e.wait.pid) {
      var i :| 0 <= i < |a| && a[i].wait.Reaped? && a[i].wait.pid == e.wait.pid;
      if i > 0 {
        assert a[1..][i-1] == a[i];
        assert ReapedIn(a[1..], e.wait.pid);
      }
    }
  }

  lemma SplitHead(a: seq<Event>, e: Event, b: seq<Event>)
    ensures a == [] ==> (a + [e] + b)[0] == e && (a + [e] + b)[1..] == b && a + b == b
    ensures a != [] ==> (a + [e] + b)[0] == a[0] && (a + b)[0] == a[0]
    ensures a != [] ==> (a + [e] + b)[1..] == a[1..] + [e] + b && (a + b)[1..] == a[1..] + b
  {
  }

  lemma {:induction false} DrainIgnores(kids: seq<Kid>, exits: Exits, a: seq<Event>, e: Event, b: seq<Event>)
    requires |exits| == |kids| && DistinctPids(kids) && Harmless(kids, exits, a, e)
    ensures Drain(kids, exits, a + [e] + b) == Drain(kids, exits, a + b)
    decreases |a|
  {
    SplitHead(a, e, b);
    if a != [] && !AllDead(exits) && (a[0].wait.Interrupted? || a[0].wait.Reaped?) {
      HarmlessRest(kids, exits, a, e);
      if a[0].wait.Reaped? && Hit(kids, exits, a[0].wait.pid).Some? {
        var h, code := Hit(kids, exits, a[0].wait.pid).value, WaitStatusToExit(a[0].wait.status);
        DrainIgnores(kids, exits[h := Some(code)], a[1..], e, b);
      } else {
        DrainIgnores(kids, exits, a[1..], e, b);
      }
    }
  }

  /** Orphans, interrupted waits and recycled pids never matter: taking such an event
      out of the stream, wherever it is, changes neither outcome nor records nor
      whom the supervisor terminates. */
  lemma {:induction false} OrphansNeverMatter(kids: seq<Kid>, follow: bool, exits: Exits, first: Option<int>,
                                              a: seq<Event>, e: Event, b: seq<Event>)
    requires |exits| == |kids| && DistinctPids(kids) && Harmless(kids, exits, a, e)
    ensures Run(kids, follow, exits, first, a + [e] + b) == Run(kids, follow, exits, first, a + b)
    decreases |a|
  {
    hide Drain, Harmless;
    SplitHead(a, e, b);
    if a == [] {
      HarmlessNow(kids, exits, e);
    } else if a[0].wait.Interrupted? || a[0].wait.Reaped? {
      HarmlessRest(kids, exits, a, e);
      if a[0].wait.Reaped? && Hit(kids, exits, a[0].wait.pid).Some? {
        var h, code := Hit(kids, exits, a[0].wait.pid).value, WaitStatusToExit(a[0].wait.status);
        DrainIgnores(kids, exits[h := Some(code)], a[1..], e, b);
        OrphansNeverMatter(kids, follow, exits[h := Some(code)], if first.Some? then first else Some(code), a[1..], e, b);
      } else {
        OrphansNeverMatter(kids, follow, exits, first, a[1..], e, b);
      }
    }
  }

  lemma HarmlessNow(kids: seq<Kid>, exits: Exits, e: Event)
    requires |exits| == |kids| && Harmless(kids, exits, [], e)
    ensures e.wait.Interrupted? || (e.wait.Reaped? && Hit(kids, exits, e.wait.pid).None?)
  {
  }

  // ----- what an operator sees -----

  /** Without shutdown the death that ends the wait decides the code once the others are
      reaped: its exit code, 128 and the signal, or 1. */
  lemma DeathDecides(kids: seq<Kid>, follow: bool, events: seq<Event>, i: nat, pid: int, st: Status)
    requires DistinctPids(kids) && OneUser(kids) && i < |events| && Undecided(kids, follow, events, i)
    requires Decisive(kids, follow, events, i) && events[i] == Event(Reaped(pid, st), false)
    requires Drain(kids, ExitsAt(kids, events, i + 1), events[i+1..]).done
    ensures Run(kids, follow, Fresh(kids), None, events).outcome ==
      match st
      case Exited(c) => Exit(c)
      case Signaled(sig) => Exit(128 + sig)
      case Other => Exit(1)
  {
    ExitCodeExact(kids, follow, events, i);
  }

  /** Under shutdown the user command's own death decides it in the same way, whoever dies
      last. */
  lemma UserDeathDecides(kids: seq<Kid>, follow: bool, events: seq<Event>, i: nat, u: nat, j: nat, st: Status)
    requires DistinctPids(kids) && OneUser(kids) && i < |events| && Undecided(kids, follow, events, i)
    requires Decisive(kids, follow, events, i) && events[i].wait.Reaped? && events[i].down
    requires u < |kids| && kids[u].name == "user" && j <= i && events[j].wait == Reaped(kids[u].pid, st)
    requires forall m :: 0 <= m < j ==> !(events[m].wait.Reaped? && events[m].wait.pid == kids[u].pid)
    ensures Run(kids, follow, Fresh(kids), None, events).outcome ==
      match st
      case Exited(c) => Exit(c)
      case Signaled(sig) => Exit(128 + sig)
      case Other => Exit(1)
  {
    ExitCodeExact(kids, follow, events, i);
    NoDeathYet(events, kids[u].pid, j);
    CodeStays(events, kids[u].pid, j + 1, i + 1);
    assert UserIndex(kids).Some? && UserIndex(kids).value == u;
  }

  lemma {:induction false} NoDeathYet(events: seq<Event>, pid: int, n: nat)
    requires n <= |events| && forall m :: 0 <= m < n ==> !(events[m].wait.Reaped? && events[m].wait.pid == pid)
    ensures CodeAt(events, pid, n) == None
  {
    if n > 0 { NoDeathYet(events, pid, n - 1); }
  }

  /** Under shutdown the supervisor does not wait for all tracked children: it exits
      as soon as the user command is reaped, whatever sshd still does. */
  lemma ShutdownLeavesSshd(sshd: int, user: int, follow: bool, st: Status, rest: seq<Event>)
    requires sshd != user
    ensures var kids := [Kid("sshd", sshd), Kid("user", user)];
      && Run(kids, follow, Fresh(kids), None, [Event(Reaped(user, st), true)] + rest).outcome == Exit(WaitStatusToExit(st))
      && CodeAt([Event(Reaped(user, st), true)] + rest, sshd, 1).None?
  {
    var kids := [Kid("sshd", sshd), Kid("user", user)];
    var events := [Event(Reaped(user, st), true)] + rest;
    assert CodeAt(events, user, 0).None? && CodeAt(events, sshd, 0).None?;
    assert Dies(kids, events, 0, 1);
    assert kids[0].name != "user" && UserIndex(kids) == Some(1);
    assert CodeAt(events, user, 1) == Some(WaitStatusToExit(st));
    ExitCodeExact(kids, follow, events, 0);
  }

  /** The dev-box default: without follow and without shutdown only the first death
      of sshd, or a failed wait, ends the supervisor. */
  lemma OnlySshdEndsIt(kids: seq<Kid>, events: seq<Event>, i: nat)
    requires i < |events| && !events[i].down && Decisive(kids, false, events, i)
    ensures events[i].wait.NoChildren? || events[i].wait.Failed? ||
      exists k: nat :: Dies(kids, events, i, k) && kids[k].name == "sshd"
  {
  }
}
