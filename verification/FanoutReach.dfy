/** What can still happen to a client of a shared upstream: connections that have left the map, clients that
    wait in vain for a loop that cannot reach them, and clients that are served after their handler has returned. */
module FanoutReach {
  import opened Basics
  import opened Fanout

  // ----- Connections that have left the map -----

  /** A connection that has left the map never comes back: an install makes a new one. */
  lemma {:induction false} NeverReturns(s: State, steps: seq<Step>, k: nat)
    requires IsRun(s, steps) && k < |s.conns| && s.entry != Some(k)
    ensures RunFrom(s, steps).entry != Some(k)
    decreases |steps|
  {
    if steps != [] {
      NeverReturns(Next(s, steps[0]), steps[1..], k);
    }
  }

  /** A handler that has to delete the map entry does nothing else first. */
  lemma {:induction false} CleanupIsNext(s: State, steps: seq<Step>, c: ClientId)
    requires IsRun(s, steps) && At(s, c, CleanupPending)
    ensures RemoveCleanup(c) in steps || At(RunFrom(s, steps), c, CleanupPending)
    decreases |steps|
  {
    if steps != [] && steps[0] != RemoveCleanup(c) {
      assert At(Next(s, steps[0]), c, CleanupPending);
      CleanupIsNext(Next(s, steps[0]), steps[1..], c);
    }
  }

  /** When the handler of the last listed client has run its course, its connection is out of the map for
      good, whatever other steps come before and after. */
  lemma {:induction false} CleanupClearsEntry(s: State, steps: seq<Step>, c: ClientId, k: nat)
    requires IsRun(s, steps) && k < |s.conns| && RemoveCleanup(c) in steps
    ensures RunFrom(s, steps).entry != Some(k)
    decreases |steps|
  {
    var s' := Next(s, steps[0]);
    if steps[0] == RemoveCleanup(c) {
      NeverReturns(s', steps[1..], k);
    } else {
      assert |s'.conns| >= |s.conns|;
      CleanupClearsEntry(s', steps[1..], c, k);
    }
  }

  /** After the locked removal of a connection's last client, in every continuation, either that connection is out
      of the map or the client's handler is still on its way to take it out. */
  lemma LastRemovalDeletesEntry(s: State, c: ClientId, steps: seq<Step>)
    requires Enabled(s, RemoveLocked(c)) && Without(s.conns[s.clients[c].stage.conn].clients, c) == []
    requires IsRun(Next(s, RemoveLocked(c)), steps)
    ensures var t := RunFrom(Next(s, RemoveLocked(c)), steps);
            t.entry == Some(s.clients[c].stage.conn) ==> At(t, c, CleanupPending)
  {
    var s' := Next(s, RemoveLocked(c));
    CleanupIsNext(s', steps, c);
    if RemoveCleanup(c) in steps {
      CleanupClearsEntry(s', steps, c, s.clients[c].stage.conn);
    }
  }

  // ----- Clients that wait in vain -----

  /** The loop of connection k holds it in hand, or will still find it in the map. */
  ghost predicate InReach(s: State, k: nat) {
    && Live(s, k)
    && (s.upstream.Writing? || s.upstream.NotifyFound? || (s.entry.Some? && !s.upstream.Exiting?))
  }

  ghost predicate Settled(s: State, c: ClientId) {
    && c in s.clients && s.clients[c].home.Some? && s.clients[c].home.value < |s.conns|
    && Enlisted(s.clients[c].stage) && !s.clients[c].stage.Opening?
  }

  /** A client on a connection that no loop reaches any more. */
  ghost predicate Stranded(s: State, c: ClientId) {
    Settled(s, c) && !InReach(s, s.clients[c].home.value)
  }

  /** In the course of these steps the client is sent something or told that it is done. */
  ghost predicate Hears(s: State, steps: seq<Step>, c: ClientId) {
    && IsRun(s, steps) && c in s.clients && c in RunFrom(s, steps).clients
    && (RunFrom(s, steps).clients[c].received != s.clients[c].received
        || RunFrom(s, steps).clients[c].closed != s.clients[c].closed)
  }

  lemma StrandedUnserved(s: State, c: ClientId)
    requires Inv(s) && Stranded(s, c) && (s.upstream.Writing? || s.upstream.NotifyFound?)
    ensures c !in s.conns[s.upstream.own].clients
  {
    var k := s.upstream.own;
    assert Live(s, k) && InReach(s, k);
    assert c in s.conns[k].clients ==> Served(s.clients[c], k, s.conns[k].chunks);
  }

  lemma OutOfReachStays(s: State, step: Step, k: nat)
    requires Pointers(s) && Enabled(s, step) && k < |s.conns| && !InReach(s, k)
    ensures !InReach(Next(s, step), k)
  {
  }

  lemma StrandedStays(s: State, step: Step, c: ClientId)
    requires Inv(s) && Enabled(s, step) && Stranded(s, c)
    ensures Stranded(Next(s, step), c)
    ensures Next(s, step).clients[c].received == s.clients[c].received
    ensures Next(s, step).clients[c].closed == s.clients[c].closed
  {
    OutOfReachStays(s, step, s.clients[c].home.value);
    if step.WriteAll? || step.NotifyAll? {
      StrandedUnserved(s, c);
    } else {
      assert ClientOK(s, c);
    }
  }

  /** A client that the loop cannot reach is sent nothing more and not told that it is done. */
  lemma {:induction false} StrandedForever(s: State, steps: seq<Step>, c: ClientId)
    requires Inv(s) && IsRun(s, steps) && Stranded(s, c)
    ensures Stranded(RunFrom(s, steps), c) && !Hears(s, steps, c)
    decreases |steps|
  {
    if steps != [] {
      StepKeeps(s, steps[0]);
      StrandedStays(s, steps[0], c);
      StrandedForever(Next(s, steps[0]), steps[1..], c);
    }
  }

  lemma HearsNow(s: State, step: Step, c: ClientId)
    requires Enabled(s, step) && c in s.clients && c in Next(s, step).clients
    requires Next(s, step).clients[c].closed != s.clients[c].closed
    ensures Hears(s, [step], c)
  {
    assert RunFrom(Next(s, step), []) == Next(s, step);
  }

  lemma HearsLater(s: State, step: Step, rest: seq<Step>, c: ClientId)
    requires Enabled(s, step) && c in s.clients && c in Next(s, step).clients
    requires Next(s, step).clients[c] == s.clients[c] && Hears(Next(s, step), rest, c)
    ensures Hears(s, [step] + rest, c)
  {
    assert ([step] + rest)[1..] == rest;
  }

  /** The steps in which the loop turns to a client it can still reach. */
  lemma ReachedHears(s: State, c: ClientId) returns (steps: seq<Step>)
    requires Inv(s) && Settled(s, c) && InReach(s, s.clients[c].home.value)
    requires c in s.conns[s.clients[c].home.value].clients
    ensures Hears(s, steps, c)
    decreases if s.upstream.Connecting? then 2 else if s.upstream.Reading? || s.upstream.Notifying? then 1 else 0
  {
    var step := match s.upstream
      case Connecting(_, starter) => OpenSucceeds(starter)
      case Reading(_) => Read([0], false)
      case Writing(_, _, _, _) => WriteAll(map[c := 0])
      case Notifying(_) => NotifyLookup
      case _ => NotifyAll;
    var s' := Next(s, step);
    if s.upstream.Writing? || s.upstream.NotifyFound? {
      HearsNow(s, step, c);
      steps := [step];
    } else {
      StepKeeps(s, step);
      var rest := ReachedHears(s', c);
      HearsLater(s, step, rest, c);
      steps := [step] + rest;
    }
  }

  /** A client can still be served, or told that it is done, if and only if it is listed and the loop of its
      connection holds that connection or finds it in the map. */
  lemma HearsIff(s: State, c: ClientId)
    requires Inv(s) && Settled(s, c)
    ensures var k := s.clients[c].home.value;
            (exists steps :: Hears(s, steps, c)) <==> c in s.conns[k].clients && InReach(s, k)
  {
    var k := s.clients[c].home.value;
    if c in s.conns[k].clients && InReach(s, k) {
      var steps := ReachedHears(s, c);
    } else {
      forall steps | IsRun(s, steps) ensures !Hears(s, steps, c) {
        if c in s.conns[k].clients {
          StrandedForever(s, steps, c);
        } else {
          DroppedForever(s, steps, c);
        }
      }
    }
  }

  /** A joiner is listed in vain if and only if the connection it looked up has gone out of reach by then. */
  lemma JoinHeardIff(s: State, c: ClientId)
    requires Inv(s) && Enabled(s, JoinAppend(c))
    ensures (exists steps :: Hears(Next(s, JoinAppend(c)), steps, c)) <==> InReach(s, s.clients[c].stage.conn)
  {
    JoinAppendKeeps(s, c);
    HearsIff(Next(s, JoinAppend(c)), c);
  }

  lemma StepThen(s: State, step: Step, rest: seq<Step>)
    requires Enabled(s, step) && IsRun(Next(s, step), rest)
    ensures IsRun(s, [step] + rest) && RunFrom(s, [step] + rest) == RunFrom(Next(s, step), rest)
  {
    assert ([step] + rest)[1..] == rest;
  }

  const NEWCOMER := Client(Arrived, 0, [], None, 0, 0, [])
  const STARTER := Client(Opening, 0, [], Some(0), 0, 0, [])

  /** Client 0 has installed its connection. */
  const INSTALLED := State([Conn([0], [], [])], Some(0), Connecting(0, 0), map[0 := STARTER])

  /** Client 1 was put on the list of that connection after its upstream failed to open. */
  const LATE := State([Conn([0, 1], [], [])], None, Idle,
                      map[0 := STARTER.(stage := Starting), 1 := NEWCOMER.(stage := Waiting, home := Some(0))])

  lemma InstalledRun() returns (steps: seq<Step>)
    ensures IsRun(INIT, steps) && RunFrom(INIT, steps) == INSTALLED
  {
    var s1 := INIT.(clients := map[0 := NEWCOMER]);
    var s2 := INIT.(clients := map[0 := NEWCOMER.(stage := Starting)]);
    assert Next(s2, Install(0)) == INSTALLED;
    StepThen(s2, Install(0), []);
    assert Next(s1, SkipJoin(0)) == s2;
    StepThen(s1, SkipJoin(0), [Install(0)] + []);
    assert Next(INIT, Arrive(0)) == s1;
    StepThen(INIT, Arrive(0), [SkipJoin(0)] + ([Install(0)] + []));
    steps := [Arrive(0)] + ([SkipJoin(0)] + ([Install(0)] + []));
  }

  lemma LateRun() returns (steps: seq<Step>)
    ensures IsRun(INSTALLED, steps) && RunFrom(INSTALLED, steps) == LATE
  {
    var found := NEWCOMER.(stage := JoinFound(0));
    var s1 := INSTALLED.(clients := map[0 := STARTER, 1 := NEWCOMER]);
    var s2 := INSTALLED.(clients := map[0 := STARTER, 1 := found]);
    var s3 := State(INSTALLED.conns, None, Idle, map[0 := STARTER.(stage := Starting), 1 := found]);
    assert Next(s3, JoinAppend(1)).conns[0].clients == [0, 1];
    assert Next(s3, JoinAppend(1)).conns == LATE.conns;
    assert Next(s3, JoinAppend(1)).clients == LATE.clients;
    assert Next(s3, JoinAppend(1)) == LATE;
    StepThen(s3, JoinAppend(1), []);
    steps := [JoinAppend(1)] + [];
    assert Next(s2, OpenFails(0)) == s3;
    StepThen(s2, OpenFails(0), steps);
    steps := [OpenFails(0)] + steps;
    assert Next(s1, JoinLookup(1)) == s2;
    StepThen(s1, JoinLookup(1), steps);
    steps := [JoinLookup(1)] + steps;
    assert Next(INSTALLED, Arrive(1)) == s1;
    StepThen(INSTALLED, Arrive(1), steps);
    steps := [Arrive(1)] + steps;
  }

  lemma {:induction false} RunThen(s: State, first: seq<Step>, rest: seq<Step>)
    requires IsRun(s, first) && IsRun(RunFrom(s, first), rest)
    ensures IsRun(s, first + rest) && RunFrom(s, first + rest) == RunFrom(RunFrom(s, first), rest)
    decreases |first|
  {
    if first == [] {
      assert first + rest == rest;
    } else {
      RunThen(Next(s, first[0]), first[1..], rest);
      assert first + rest == [first[0]] + (first[1..] + rest);
      StepThen(s, first[0], first[1..] + rest);
    }
  }

  /** It does happen: the upstream fails to open between the lookup and the listing of client 1. */
  lemma ListedInVain() returns (steps: seq<Step>)
    ensures IsRun(INIT, steps) && At(RunFrom(INIT, steps), 1, Waiting)
    ensures forall more :: !Hears(RunFrom(INIT, steps), more, 1)
  {
    var first := InstalledRun();
    var rest := LateRun();
    RunThen(INIT, first, rest);
    steps := first + rest;
    RunKeeps(INIT, steps);
    forall more | IsRun(LATE, more) ensures !Hears(LATE, more, 1) {
      StrandedForever(LATE, more, 1);
    }
  }

  // ----- The end of an upstream -----

  /** The loop is at work on connection k, and finds it in the map. */
  ghost predicate AtWork(s: State, k: nat) {
    Live(s, k) && !s.upstream.Connecting? && !s.upstream.Exiting? && s.entry == Some(k)
  }

  /** The client was told that it is done, or is on the list of a connection that the loop is at work on. */
  ghost predicate WillBeTold(s: State, c: ClientId, k: nat) {
    && c in s.clients && k < |s.conns|
    && (s.clients[c].closed == 1 || (AtWork(s, k) && c in s.conns[k].clients))
  }

  lemma WillBeToldStep(s: State, step: Step, c: ClientId, k: nat)
    requires Inv(s) && Enabled(s, step) && WillBeTold(s, c, k)
    requires !step.RemoveCleanup? && step != RemoveLocked(c)
    ensures WillBeTold(Next(s, step), c, k)
  {
    StepKeeps(s, step);
    assert ClientOK(s, c) && ClientOK(Next(s, step), c);
    if s.clients[c].closed == 0 {
      assert Served(s.clients[c], k, s.conns[k].chunks);
      if step.WriteAll? {
        AliveFacts(s.conns[k].clients, step.fails);
      } else if step.RemoveLocked? {
        WithoutFacts(s.conns[s.clients[step.c].stage.conn].clients, step.c);
      }
    } else {
      ToldStays(s, step, c);
    }
  }

  lemma ToldStays(s: State, step: Step, c: ClientId)
    requires Inv(s) && Enabled(s, step) && c in s.clients && s.clients[c].closed == 1
    ensures c in Next(s, step).clients && Next(s, step).clients[c].closed == 1
  {
    StepKeeps(s, step);
    assert c in Next(s, step).clients && ClientOK(Next(s, step), c);
    assert Next(s, step).clients[c].closed >= 1;
  }

  /** However an upstream ends, everyone is told: if the loop is at work and its run is over at the end, then every
      client that was on its list has been told that it is done, unless it was taken off the list by its own
      handler or the entry was deleted by the cleanup of another one. */
  lemma {:induction false} EndTellsEveryone(s: State, steps: seq<Step>, c: ClientId, k: nat)
    requires Inv(s) && IsRun(s, steps) && WillBeTold(s, c, k)
    requires forall step | step in steps :: !step.RemoveCleanup? && step != RemoveLocked(c)
    ensures WillBeTold(RunFrom(s, steps), c, k)
    ensures !AtWork(RunFrom(s, steps), k) ==> RunFrom(s, steps).clients[c].closed == 1
    decreases |steps|
  {
    if steps != [] {
      assert steps[0] in steps;
      WillBeToldStep(s, steps[0], c, k);
      StepKeeps(s, steps[0]);
      EndTellsEveryone(Next(s, steps[0]), steps[1..], c, k);
    }
  }

  /** A failed read of a loop that is left alone: everyone on the list is told, the list is empty, the entry is gone, and
      another upstream can be installed. */
  lemma ErrorEndsUpstream(s: State, k: nat) returns (steps: seq<Step>)
    requires Inv(s) && AtWork(s, k) && s.upstream.Reading?
    ensures steps == [Read([], true)] + ([NotifyLookup] + ([NotifyAll] + ([LoopCleanup] + [])))
    ensures IsRun(s, steps)
    ensures var t := RunFrom(s, steps);
            && t.upstream == Idle && t.entry == None && k < |t.conns| && t.conns[k].clients == []
            && forall c | c in s.conns[k].clients :: c in t.clients && t.clients[c].closed == 1
  {
    var s1 := Next(s, Read([], true));
    var s2 := Next(s1, NotifyLookup);
    var s3 := Next(s2, NotifyAll);
    assert Next(s3, LoopCleanup).upstream == Idle;
    StepThen(s3, LoopCleanup, []);
    StepThen(s2, NotifyAll, [LoopCleanup] + []);
    StepThen(s1, NotifyLookup, [NotifyAll] + ([LoopCleanup] + []));
    StepThen(s, Read([], true), [NotifyLookup] + ([NotifyAll] + ([LoopCleanup] + [])));
    steps := [Read([], true)] + ([NotifyLookup] + ([NotifyAll] + ([LoopCleanup] + [])));
    forall c | c in s.conns[k].clients ensures c in s.clients && s.clients[c].closed == 0 {
      assert Live(s, k) && Served(s.clients[c], k, s.conns[k].chunks);
    }
  }

  /** A handler that has returned, because no stream could be opened or otherwise, does nothing more. */
  lemma {:induction false} GoneForGood(s: State, steps: seq<Step>, c: ClientId)
    requires IsRun(s, steps) && At(s, c, Gone)
    ensures At(RunFrom(s, steps), c, Gone)
    decreases |steps|
  {
    if steps != [] {
      assert At(Next(s, steps[0]), c, Gone);
      GoneForGood(Next(s, steps[0]), steps[1..], c);
    }
  }

  lemma GiveUpIsFinal(s: State, steps: seq<Step>, c: ClientId)
    requires Enabled(s, GiveUp(c)) && IsRun(Next(s, GiveUp(c)), steps)
    ensures At(RunFrom(Next(s, GiveUp(c)), steps), c, Gone)
  {
    GoneForGood(Next(s, GiveUp(c)), steps, c);
  }

  /** As long as the loop finds its connection, it stops reading and writing only for a read that fails or for a list
      that has become empty. */
  lemma LoopGoesOn(s: State, step: Step, k: nat)
    requires Inv(s) && Enabled(s, step) && AtWork(s, k) && (s.upstream.Reading? || (s.upstream.Writing? && !s.upstream.err))
    ensures var u := Next(s, step).upstream;
            !(u.Reading? && u.own == k) && !(u.Writing? && u.own == k && !u.err) ==>
              (step.Read? && step.err) || (step.WriteAll? && Next(s, step).conns[k].clients == [])
  {
  }

  /** The loop has seen a failed read, or is past its body. */
  ghost predicate Ending(s: State) {
    s.upstream.Idle? || s.upstream.Notifying? || s.upstream.NotifyFound? || s.upstream.Exiting?
    || (s.upstream.Writing? && s.upstream.err)
  }

  /** After a failed read the loop does not read again: what follows up to the next install is its end. */
  lemma {:induction false} NoReadAfterError(s: State, steps: seq<Step>)
    requires IsRun(s, steps) && (Ending(s) || (steps != [] && steps[0].Read? && steps[0].err))
    requires forall step | step in steps :: !step.Install?
    ensures forall i | 1 <= i < |steps| :: !steps[i].Read?
    ensures Ending(s) && steps != [] ==> !steps[0].Read?
    decreases |steps|
  {
    if steps != [] {
      assert steps[0] in steps;
      assert Ending(Next(s, steps[0]));
      assert forall i | 1 <= i < |steps| :: steps[i] == steps[1..][i - 1];
      NoReadAfterError(Next(s, steps[0]), steps[1..]);
    }
  }

  // ----- Clients that are served after their removal -----

  /** The loop is about to write to, or to notify, the clients of connection k, whatever the map says. */
  ghost predicate InHands(s: State, k: nat) {
    Live(s, k) && (s.upstream.Writing? || s.upstream.NotifyFound?)
  }

  /** After its handler has returned, a client can still be written to, or told that it is done, if and only if the
      entry is gone and the loop holds a connection that lists the client. */
  lemma ReturnedHearsIff(s: State, c: ClientId)
    requires Sound(s) && At(s, c, Gone) && s.clients[c].home.Some?
    ensures var k := s.clients[c].home.value;
            && k < |s.conns|
            && ((exists steps :: Hears(s, steps, c)) <==> s.entry.None? && c in s.conns[k].clients && InHands(s, k))
  {
    assert ClientOK(s, c) && RemovalOK(s, c);
    HearsIff(s, c);
  }

  /** A removal that finds no entry in the map ends with the client still within reach if and only if the loop holds a
      connection that lists it. */
  lemma SkippedRemovalHearsIff(s: State, c: ClientId)
    requires Sound(s) && Enabled(s, RemoveLookup(c)) && s.entry.None?
    ensures s.clients[c].home.Some? && s.clients[c].home.value < |s.conns|
    ensures var k, s' := s.clients[c].home.value, Next(s, RemoveLookup(c));
            && At(s', c, Gone)
            && ((exists steps :: Hears(s', steps, c)) <==> c in s.conns[k].clients && InHands(s, k))
  {
    assert ClientOK(s, c);
    SoundStep(s, RemoveLookup(c));
    ReturnedHearsIff(Next(s, RemoveLookup(c)), c);
  }

  /** A removal that gets as far as the client list is final. */
  lemma LockedRemovalIsFinal(s: State, c: ClientId, steps: seq<Step>)
    requires Sound(s) && Enabled(s, RemoveLocked(c))
    ensures !Hears(Next(s, RemoveLocked(c)), steps, c)
  {
    var s' := Next(s, RemoveLocked(c));
    assert ClientOK(s, c) && RemovalOK(s, c);
    var k := s.clients[c].home.value;
    WithoutFacts(s.conns[s.clients[c].stage.conn].clients, c);
    SoundStep(s, RemoveLocked(c));
    assert c in s'.conns[k].clients ==> !Live(s', k);
    HearsIff(s', c);
  }

  const LEFT := STARTER.(stage := CleanupPending)

  /** Client 0 was the last one and was removed, while client 1 had already looked the connection up. */
  const EMPTIED := State([Conn([], [], [])], Some(0), Reading(0), map[0 := LEFT, 1 := NEWCOMER.(stage := JoinFound(0))])

  const LISTENER := NEWCOMER.(stage := Waiting, home := Some(0))

  /** Client 1 was listed, a chunk was read, and client 1 has returned without having been removed. */
  const FORGOTTEN := State([Conn([1], [], [[7]])], None, Writing(0, 0, [7], false),
                           map[0 := LEFT.(stage := Gone), 1 := LISTENER.(stage := Gone)])

  /** The upstream is open and client 1 has looked the connection up. */
  const LOOKED_UP := State([Conn([0], [], [])], Some(0), Reading(0),
                           map[0 := STARTER.(stage := Waiting), 1 := NEWCOMER.(stage := JoinFound(0))])

  lemma LookedUpRun() returns (steps: seq<Step>)
    ensures IsRun(INSTALLED, steps) && RunFrom(INSTALLED, steps) == LOOKED_UP
  {
    var open := State(INSTALLED.conns, Some(0), Reading(0), map[0 := STARTER.(stage := Waiting)]);
    var s1 := open.(clients := map[0 := STARTER.(stage := Waiting), 1 := NEWCOMER]);
    assert Next(s1, JoinLookup(1)) == LOOKED_UP;
    StepThen(s1, JoinLookup(1), []);
    steps := [JoinLookup(1)] + [];
    assert Next(open, Arrive(1)) == s1;
    StepThen(open, Arrive(1), steps);
    steps := [Arrive(1)] + steps;
    assert Next(INSTALLED, OpenSucceeds(0)) == open;
    StepThen(INSTALLED, OpenSucceeds(0), steps);
    steps := [OpenSucceeds(0)] + steps;
  }

  lemma EmptiedRun() returns (steps: seq<Step>)
    ensures IsRun(LOOKED_UP, steps) && RunFrom(LOOKED_UP, steps) == EMPTIED
  {
    var found := NEWCOMER.(stage := JoinFound(0));
    var s1 := LOOKED_UP.(clients := map[0 := STARTER.(stage := Leaving), 1 := found]);
    var s2 := LOOKED_UP.(clients := map[0 := STARTER.(stage := RemoveFound(0)), 1 := found]);
    assert Next(s2, RemoveLocked(0)).conns == EMPTIED.conns;
    assert Next(s2, RemoveLocked(0)).clients == EMPTIED.clients;
    StepThen(s2, RemoveLocked(0), []);
    steps := [RemoveLocked(0)] + [];
    assert Next(s1, RemoveLookup(0)) == s2;
    StepThen(s1, RemoveLookup(0), steps);
    steps := [RemoveLookup(0)] + steps;
    assert Next(LOOKED_UP, Wake(0)) == s1;
    StepThen(LOOKED_UP, Wake(0), steps);
    steps := [Wake(0)] + steps;
  }

  /** The same before client 0 deletes the entry. */
  const UNAWARE := State(FORGOTTEN.conns, Some(0), FORGOTTEN.upstream, map[0 := LEFT, 1 := LISTENER])

  lemma UnawareRun() returns (steps: seq<Step>)
    ensures IsRun(EMPTIED, steps) && RunFrom(EMPTIED, steps) == UNAWARE
  {
    var s1 := State([Conn([1], [], [])], Some(0), Reading(0), map[0 := LEFT, 1 := LISTENER]);
    assert Next(s1, Read([7], false)).conns[0] == UNAWARE.conns[0];
    assert Next(s1, Read([7], false)).conns == UNAWARE.conns;
    assert Next(s1, Read([7], false)) == UNAWARE;
    StepThen(s1, Read([7], false), []);
    steps := [Read([7], false)] + [];
    assert Next(EMPTIED, JoinAppend(1)).conns[0] == s1.conns[0];
    assert Next(EMPTIED, JoinAppend(1)).conns == s1.conns;
    assert Next(EMPTIED, JoinAppend(1)).clients == s1.clients;
    assert Next(EMPTIED, JoinAppend(1)) == s1;
    StepThen(EMPTIED, JoinAppend(1), steps);
    steps := [JoinAppend(1)] + steps;
  }

  lemma ForgottenRun() returns (steps: seq<Step>)
    ensures IsRun(UNAWARE, steps) && RunFrom(UNAWARE, steps) == FORGOTTEN
  {
    var s3 := FORGOTTEN.(clients := map[0 := LEFT.(stage := Gone), 1 := LISTENER]);
    var s4 := FORGOTTEN.(clients := map[0 := LEFT.(stage := Gone), 1 := LISTENER.(stage := Leaving)]);
    assert Next(s4, RemoveLookup(1)) == FORGOTTEN;
    StepThen(s4, RemoveLookup(1), []);
    steps := [RemoveLookup(1)] + [];
    assert Next(s3, Wake(1)) == s4;
    StepThen(s3, Wake(1), steps);
    steps := [Wake(1)] + steps;
    assert Next(UNAWARE, RemoveCleanup(0)) == s3;
    StepThen(UNAWARE, RemoveCleanup(0), steps);
    steps := [RemoveCleanup(0)] + steps;
  }

  /** It does happen: client 1 is sent a chunk after its handler has returned. */
  lemma ServedAfterReturn() returns (steps: seq<Step>)
    ensures IsRun(INIT, steps) && At(RunFrom(INIT, steps), 1, Gone)
    ensures var s := RunFrom(INIT, steps);
            && s.clients[1].received == [] && Enabled(s, WriteAll(map[]))
            && 1 in Next(s, WriteAll(map[])).clients && Next(s, WriteAll(map[])).clients[1].received == [7]
  {
    var first := InstalledRun();
    var second := LookedUpRun();
    RunThen(INIT, first, second);
    var third := EmptiedRun();
    RunThen(INIT, first + second, third);
    steps := first + second + third;
    var fourth := UnawareRun();
    RunThen(INIT, steps, fourth);
    steps := steps + fourth;
    var last := ForgottenRun();
    RunThen(INIT, steps, last);
    steps := steps + last;
  }
}
