/** Recordings of live channels: starts, manual stops and deadline timers that race each other.
    What runs under the service lock is one step; a stop that has left the lock goes on in
    steps of its own, interleaved with everything else. */
module Recording {
  import opened Basics

  type Channel = string
  type Consumer = nat

  // ----- State -----

  /** How far a recording is: live in the recordings map, or taken out of it by a stop that
      then disarms the timer, completes the file, leaves the activity list and drops the consumer. */
  datatype Stage = Live | Taken | Disarmed | Completed | Unlisted | Finished

  datatype Timer = Armed | Fired | Off

  /** A recording that was started, with how often it was completed and its consumer removed. */
  datatype Rec = Rec(channel: Channel, stage: Stage, timer: Timer, completions: nat, removals: nat)

  /** `recordings` and `viewers` are the service's map and the activity list; `recs` remembers every
      recording ever started under its consumer; `calls` counts stop calls that wait for the lock. */
  datatype State = State(recordings: map<Channel, Consumer>, viewers: set<Consumer>,
                         recs: map<Consumer, Rec>, calls: multiset<Channel>)

  const INIT := State(map[], {}, map[], multiset{})

  datatype Step =
    | Start(ch: Channel, c: Consumer, ok: bool)
    | CallStop(ch: Channel)
    | Fire(c: Consumer)
    | Take(ch: Channel)
    | Disarm(c: Consumer)
    | Complete(c: Consumer, session: bool)
    | Unlist(c: Consumer)
    | Drop(c: Consumer)

  predicate At(s: State, c: Consumer, stage: Stage) {
    c in s.recs && s.recs[c].stage == stage
  }

  /** `ok` tells whether a session could be joined or created; its consumer ID is new. */
  predicate Enabled(s: State, step: Step) {
    match step
    case Start(_, c, _) => c !in s.recs
    case CallStop(_) => true
    case Fire(c) => c in s.recs && s.recs[c].timer == Armed
    case Take(ch) => ch in s.calls
    case Disarm(c) => At(s, c, Taken)
    case Complete(c, _) => At(s, c, Disarmed)
    case Unlist(c) => At(s, c, Completed)
    case Drop(c) => At(s, c, Unlisted)
  }

  function SetRec(s: State, c: Consumer, r: Rec): State {
    s.(recs := s.recs[c := r])
  }

  function Next(s: State, step: Step): State
    requires Enabled(s, step)
  {
    match step
    case Start(ch, c, ok) =>
      if ch in s.recordings || !ok then s
      else State(s.recordings[ch := c], s.viewers + {c}, s.recs[c := Rec(ch, Live, Armed, 0, 0)], s.calls)
    case CallStop(ch) => s.(calls := s.calls + multiset{ch})
    case Fire(c) =>
      SetRec(s.(calls := s.calls + multiset{s.recs[c].channel}), c, s.recs[c].(timer := Fired))
    case Take(ch) =>
      var t := s.(calls := s.calls - multiset{ch});
      if ch !in s.recordings then t
      else
        var c := s.recordings[ch];
        var r := if c in s.recs then s.recs[c].(stage := Taken) else Rec(ch, Taken, Off, 0, 0);
        SetRec(t.(recordings := s.recordings - {ch}), c, r)
    case Disarm(c) =>
      var r := s.recs[c];
      SetRec(s, c, r.(stage := Disarmed, timer := if r.timer == Armed then Off else r.timer))
    case Complete(c, session) =>
      var r := s.recs[c];
      SetRec(s, c, r.(stage := Completed, completions := r.completions + if session then 1 else 0))
    case Unlist(c) => SetRec(s.(viewers := s.viewers - {c}), c, s.recs[c].(stage := Unlisted))
    case Drop(c) =>
      var r := s.recs[c];
      SetRec(s, c, r.(stage := Finished, removals := r.removals + 1))
  }

  ghost predicate IsRun(s: State, steps: seq<Step>)
    decreases |steps|
  {
    steps == [] || (Enabled(s, steps[0]) && IsRun(Next(s, steps[0]), steps[1..]))
  }

  ghost function RunFrom(s: State, steps: seq<Step>): State
    requires IsRun(s, steps)
    decreases |steps|
  {
    if steps == [] then s else RunFrom(Next(s, steps[0]), steps[1..])
  }

  // ----- The invariant -----

  /** The recordings map holds exactly the live recordings, each under its channel. */
  ghost predicate MapIsLive(s: State) {
    && (forall ch | ch in s.recordings ::
          var c := s.recordings[ch]; c in s.recs && s.recs[c].stage == Live && s.recs[c].channel == ch)
    && (forall c | c in s.recs && s.recs[c].stage == Live ::
          s.recs[c].channel in s.recordings && s.recordings[s.recs[c].channel] == c)
  }

  predicate Listed(stage: Stage) {
    stage == Live || stage == Taken || stage == Disarmed || stage == Completed
  }

  ghost predicate ViewersAreListed(s: State) {
    forall c :: c in s.viewers <==> c in s.recs && Listed(s.recs[c].stage)
  }

  ghost predicate OnceOnly(s: State) {
    forall c | c in s.recs ::
      && s.recs[c].completions <= (if s.recs[c].stage in {Completed, Unlisted, Finished} then 1 else 0)
      && s.recs[c].removals == (if s.recs[c].stage == Finished then 1 else 0)
      && (s.recs[c].stage == Live ==> s.recs[c].timer == Armed || (s.recs[c].timer == Fired && s.recs[c].channel in s.calls))
      && (s.recs[c].timer == Armed ==> s.recs[c].stage == Live || s.recs[c].stage == Taken)
  }

  ghost predicate Inv(s: State) {
    MapIsLive(s) && ViewersAreListed(s) && OnceOnly(s)
  }

  lemma StepKeeps(s: State, step: Step)
    requires Inv(s) && Enabled(s, step)
    ensures Inv(Next(s, step))
  {
    match step
    case Start(ch, c, ok) => StartKeeps(s, ch, c, ok);
    case Take(ch) => TakeKeeps(s, ch);
    case _ => StopKeeps(s, step);
  }

  lemma StartKeeps(s: State, ch: Channel, c: Consumer, ok: bool)
    requires Inv(s) && Enabled(s, Start(ch, c, ok))
    ensures Inv(Next(s, Start(ch, c, ok)))
  {
  }

  lemma StopKeeps(s: State, step: Step)
    requires Inv(s) && Enabled(s, step) && !step.Start? && !step.Take?
    ensures Inv(Next(s, step))
  {
    match step
    case CallStop(ch) =>
    case Fire(c) => FireKeeps(s, c);
    case Unlist(c) => UnlistKeeps(s, c);
    case Disarm(c) => StopMoves(s, c, Next(s, step).recs[c]);
    case Complete(c, _) => StopMoves(s, c, Next(s, step).recs[c]);
    case Drop(c) => StopMoves(s, c, Next(s, step).recs[c]);
  }

  lemma FireKeeps(s: State, c: Consumer)
    requires Inv(s) && Enabled(s, Fire(c))
    ensures Inv(Next(s, Fire(c)))
  {
  }

  lemma UnlistKeeps(s: State, c: Consumer)
    requires Inv(s) && At(s, c, Completed)
    ensures Inv(Next(s, Unlist(c)))
  {
  }

  /** A stop that has left the lock goes on to another stage without touching the activity list. */
  lemma StopMoves(s: State, c: Consumer, r: Rec)
    requires Inv(s) && c in s.recs && s.recs[c].stage != Live && r.stage != Live
    requires Listed(r.stage) == Listed(s.recs[c].stage)
    requires r.completions <= (if r.stage in {Completed, Unlisted, Finished} then 1 else 0)
    requires r.removals == (if r.stage == Finished then 1 else 0) && (r.timer == Armed ==> r.stage == Taken)
    ensures Inv(SetRec(s, c, r))
  {
  }

  lemma TakeKeeps(s: State, ch: Channel)
    requires Inv(s) && Enabled(s, Take(ch))
    ensures Inv(Next(s, Take(ch)))
  {
    var s' := Next(s, Take(ch));
    if ch in s.recordings {
      var c := s.recordings[ch];
      assert At(s, c, Live) && s'.recs == s.recs[c := s.recs[c].(stage := Taken)];
      TakeKeepsMap(s, ch);
      forall d | d in s'.recs && d != c && s'.recs[d].stage == Live ensures s'.recs[d].channel != ch {
        assert s.recordings[s.recs[d].channel] == d;
      }
    }
  }

  lemma TakeKeepsMap(s: State, ch: Channel)
    requires MapIsLive(s) && Enabled(s, Take(ch)) && ch in s.recordings
    ensures MapIsLive(Next(s, Take(ch)))
  {
  }

  lemma {:induction false} RunKeeps(s: State, steps: seq<Step>)
    requires Inv(s) && IsRun(s, steps)
    ensures Inv(RunFrom(s, steps))
    decreases |steps|
  {
    if steps != [] {
      StepKeeps(s, steps[0]);
      RunKeeps(Next(s, steps[0]), steps[1..]);
    }
  }

  /** No stop has left the lock without having run to its end. */
  ghost predicate Quiescent(s: State) {
    forall c | c in s.recs :: s.recs[c].stage == Live || s.recs[c].stage == Finished
  }

  /** Under any interleaving of starts, manual stops and timers: a channel has at most one live recording,
      every recording is completed at most once and its consumer removed at most once, neither while it
      is live, the deadline of a live one is set or its stop call waits, only a live one or one whose stop has just
      begun can have an armed timer, and when no stop is half done the recording viewers are exactly the
      consumers in the map. */
  lemma EveryRun(steps: seq<Step>)
    requires IsRun(INIT, steps)
    ensures var s := RunFrom(INIT, steps);
            && (forall c, d | At(s, c, Live) && At(s, d, Live) && s.recs[c].channel == s.recs[d].channel :: c == d)
            && (forall c | c in s.recs :: s.recs[c].completions <= 1 && s.recs[c].removals <= 1)
            && (forall c | At(s, c, Live) :: s.recs[c].completions == 0 && s.recs[c].removals == 0)
            && (forall c | At(s, c, Finished) :: s.recs[c].removals == 1 && c !in s.viewers)
            && (forall c | At(s, c, Live) :: s.recs[c].timer == Armed || s.recs[c].channel in s.calls)
            && (forall c | c in s.recs && s.recs[c].timer == Armed :: s.recs[c].stage == Live || s.recs[c].stage == Taken)
            && (Quiescent(s) ==> s.viewers == s.recordings.Values)
  {
    assert Inv(INIT);
    RunKeeps(INIT, steps);
    var s := RunFrom(INIT, steps);
    if Quiescent(s) {
      forall c ensures c in s.viewers <==> c in s.recordings.Values {
        if c in s.viewers {
          assert c in s.recs && s.recs[c].stage == Live;
          assert s.recordings[s.recs[c].channel] == c;
        }
        if c in s.recordings.Values {
          var ch :| ch in s.recordings && s.recordings[ch] == c;
        }
      }
    }
  }

  // ----- A stop names a channel, not a recording -----

  /** The run holds no manual stop of the channel and no deadline of c. */
  predicate Undisturbed(steps: seq<Step>, c: Consumer, ch: Channel) {
    forall i | 0 <= i < |steps| :: steps[i] != CallStop(ch) && steps[i] != Fire(c)
  }

  /** No stop call is waiting for the channel of c, and no older recording of it has a timer that can still fire. */
  ghost predicate Clear(s: State, c: Consumer)
    requires c in s.recs
  {
    && s.recs[c].channel !in s.calls
    && forall d | d in s.recs && d != c && s.recs[d].channel == s.recs[c].channel :: s.recs[d].timer != Armed
  }

  ghost predicate SurvivesUndisturbed(s: State, c: Consumer)
    requires c in s.recs
  {
    forall steps | IsRun(s, steps) && Undisturbed(steps, c, s.recs[c].channel) :: At(RunFrom(s, steps), c, Live)
  }

  lemma ClearStays(s: State, step: Step, c: Consumer)
    requires Inv(s) && Enabled(s, step) && At(s, c, Live) && Clear(s, c)
    requires step != CallStop(s.recs[c].channel) && step != Fire(c)
    ensures At(Next(s, step), c, Live) && Clear(Next(s, step), c)
    ensures Next(s, step).recs[c].channel == s.recs[c].channel
  {
    var ch, s' := s.recs[c].channel, Next(s, step);
    assert ch in s.recordings && s.recordings[ch] == c;
    match step
    case Take(other) =>
      assert other != ch;
      assert other in s.recordings ==> s.recordings[other] != c;
    case _ =>
  }

  lemma {:induction false} ClearSurvives(s: State, steps: seq<Step>, c: Consumer)
    requires Inv(s) && At(s, c, Live) && Clear(s, c) && IsRun(s, steps) && Undisturbed(steps, c, s.recs[c].channel)
    ensures At(RunFrom(s, steps), c, Live)
    decreases |steps|
  {
    if steps != [] {
      assert steps[0] != CallStop(s.recs[c].channel) && steps[0] != Fire(c);
      StepKeeps(s, steps[0]);
      ClearStays(s, steps[0], c);
      ClearSurvives(Next(s, steps[0]), steps[1..], c);
    }
  }

  lemma RunOfOne(s: State, a: Step)
    requires Enabled(s, a)
    ensures IsRun(s, [a]) && RunFrom(s, [a]) == Next(s, a)
  {
    assert [a][1..] == [];
  }

  lemma RunOfTwo(s: State, a: Step, b: Step)
    requires Enabled(s, a) && Enabled(Next(s, a), b)
    ensures IsRun(s, [a, b]) && RunFrom(s, [a, b]) == Next(Next(s, a), b)
  {
    assert [a, b][1..] == [b];
    RunOfOne(Next(s, a), b);
  }

  lemma TakeEnds(s: State, c: Consumer)
    requires Inv(s) && At(s, c, Live) && Enabled(s, Take(s.recs[c].channel))
    ensures !At(Next(s, Take(s.recs[c].channel)), c, Live)
  {
  }

  lemma WaitingCallEnds(s: State, c: Consumer)
    requires Inv(s) && At(s, c, Live) && s.recs[c].channel in s.calls
    ensures !SurvivesUndisturbed(s, c)
  {
    var ch := s.recs[c].channel;
    RunOfOne(s, Take(ch));
    TakeEnds(s, c);
    assert Undisturbed([Take(ch)], c, ch);
    assert !At(RunFrom(s, [Take(ch)]), c, Live);
  }

  lemma OldTimerEnds(s: State, c: Consumer, d: Consumer)
    requires Inv(s) && At(s, c, Live) && d in s.recs && d != c
    requires s.recs[d].channel == s.recs[c].channel && s.recs[d].timer == Armed
    ensures !SurvivesUndisturbed(s, c)
  {
    var ch, s' := s.recs[c].channel, Next(s, Fire(d));
    StepKeeps(s, Fire(d));
    assert At(s', c, Live) && s'.recs[c].channel == ch && Enabled(s', Take(ch));
    TakeEnds(s', c);
    RunOfTwo(s, Fire(d), Take(ch));
    assert Undisturbed([Fire(d), Take(ch)], c, ch);
    assert !At(RunFrom(s, [Fire(d), Take(ch)]), c, Live);
  }

  /** A recording is left alone by everything but its own deadline and manual stops of its channel, in every
      run, if and only if nothing was left over from an earlier recording of the channel when it is looked at. */
  lemma SurvivesIffClear(s: State, c: Consumer)
    requires Inv(s) && At(s, c, Live)
    ensures SurvivesUndisturbed(s, c) <==> Clear(s, c)
  {
    var ch := s.recs[c].channel;
    if Clear(s, c) {
      forall steps | IsRun(s, steps) && Undisturbed(steps, c, ch) ensures At(RunFrom(s, steps), c, Live) {
        ClearSurvives(s, steps, c);
      }
    } else if ch in s.calls {
      WaitingCallEnds(s, c);
    } else {
      var d :| d in s.recs && d != c && s.recs[d].channel == ch && s.recs[d].timer == Armed;
      OldTimerEnds(s, c, d);
    }
  }

  /** Recordings do not get in each other's way once stops have run to their end: in a state with no stop half done and
      no call waiting, every live recording survives everything but its own deadline and manual stops of its channel. */
  lemma QuietMeansClear(s: State, c: Consumer)
    requires Inv(s) && Quiescent(s) && s.calls == multiset{} && At(s, c, Live)
    ensures Clear(s, c) && SurvivesUndisturbed(s, c)
  {
    SurvivesIffClear(s, c);
  }

  /** A deadline that fires while its recording is live makes a call that takes the recording. */
  lemma DeadlineEnds(s: State, c: Consumer)
    requires Inv(s) && At(s, c, Live) && s.recs[c].timer == Armed
    ensures var s' := Next(s, Fire(c));
            Enabled(s', Take(s.recs[c].channel)) && At(Next(s', Take(s.recs[c].channel)), c, Taken)
  {
    assert s.recordings[s.recs[c].channel] == c;
  }

  lemma StepThen(s: State, step: Step, rest: seq<Step>)
    requires Enabled(s, step) && IsRun(Next(s, step), rest)
    ensures IsRun(s, [step] + rest) && RunFrom(s, [step] + rest) == RunFrom(Next(s, step), rest)
  {
    assert ([step] + rest)[1..] == rest;
  }

  /** The deadline of recording 0 has fired and a manual stop has been called, both waiting for the lock. */
  const TWO_STOPS := State(map["a" := 0], {0}, map[0 := Rec("a", Live, Fired, 0, 0)], multiset{"a", "a"})

  /** One of them has stopped recording 0, recording 1 was started, and the other one still waits. */
  const LEFT_OVER := State(map["a" := 1], {0, 1},
                           map[0 := Rec("a", Taken, Fired, 0, 0), 1 := Rec("a", Live, Armed, 0, 0)], multiset{"a"})

  lemma LeftOverRun() returns (steps: seq<Step>)
    ensures IsRun(TWO_STOPS, steps) && RunFrom(TWO_STOPS, steps) == LEFT_OVER
  {
    var s1 := State(map[], {0}, map[0 := Rec("a", Taken, Fired, 0, 0)], multiset{"a"});
    assert Next(s1, Start("a", 1, true)) == LEFT_OVER;
    StepThen(s1, Start("a", 1, true), []);
    steps := [Start("a", 1, true)] + [];
    assert Next(TWO_STOPS, Take("a")) == s1;
    StepThen(TWO_STOPS, Take("a"), steps);
    steps := [Take("a")] + steps;
  }

  lemma TwoStopsRun(rest: seq<Step>) returns (steps: seq<Step>)
    requires IsRun(TWO_STOPS, rest)
    ensures IsRun(INIT, steps) && RunFrom(INIT, steps) == RunFrom(TWO_STOPS, rest)
  {
    var s1 := State(map["a" := 0], {0}, map[0 := Rec("a", Live, Armed, 0, 0)], multiset{});
    var s2 := State(map["a" := 0], {0}, map[0 := Rec("a", Live, Fired, 0, 0)], multiset{"a"});
    assert Next(s2, CallStop("a")) == TWO_STOPS;
    StepThen(s2, CallStop("a"), rest);
    steps := [CallStop("a")] + rest;
    assert Next(s1, Fire(0)) == s2;
    StepThen(s1, Fire(0), steps);
    steps := [Fire(0)] + steps;
    assert Next(INIT, Start("a", 0, true)) == s1;
    StepThen(INIT, Start("a", 0, true), steps);
    steps := [Start("a", 0, true)] + steps;
  }

  /** It does happen: a recording is started while a stop of the one before it still waits, and ends without its own
      deadline or a stop that was called since. */
  lemma EndedByLeftOver() returns (steps: seq<Step>)
    ensures IsRun(INIT, steps) && At(RunFrom(INIT, steps), 1, Live)
    ensures !SurvivesUndisturbed(RunFrom(INIT, steps), 1)
  {
    var rest := LeftOverRun();
    steps := TwoStopsRun(rest);
    assert Inv(INIT);
    RunKeeps(INIT, steps);
    SurvivesIffClear(LEFT_OVER, 1);
  }

  /** The recording of consumer c is over: completed if there was a session, its consumer removed and its timer
      disarmed, and no other recording has changed. */
  ghost predicate Over(was: State, now: State, c: Consumer, session: bool) {
    && At(now, c, Finished) && now.recs[c].removals == 1 && now.recs[c].completions == (if session then 1 else 0)
    && now.recs[c].timer != Armed && now.viewers == was.viewers - {c}
    && forall d | d != c :: (d in now.recs <==> d in was.recs) && (d in was.recs ==> now.recs[d] == was.recs[d])
  }

  lemma OverSince(was: State, locked: State, now: State, c: Consumer, session: bool)
    requires Over(locked, now, c, session) && c in was.recs
    requires locked.viewers == was.viewers && locked.recs == was.recs[c := was.recs[c].(stage := Taken)]
    ensures Over(was, now, c, session)
  {
  }

  /** The steps of a stop after it has left the lock, run without interruption. */
  lemma RestOfStop(s: State, c: Consumer, session: bool) returns (s': State)
    requires Inv(s) && At(s, c, Taken)
    ensures Inv(s') && s'.recordings == s.recordings && s'.calls == s.calls && Over(s, s', c, session)
  {
    var s1 := Next(s, Disarm(c));
    StepKeeps(s, Disarm(c));
    var s2 := Next(s1, Complete(c, session));
    StepKeeps(s1, Complete(c, session));
    var s3 := Next(s2, Unlist(c));
    StepKeeps(s2, Unlist(c));
    s' := Next(s3, Drop(c));
    StepKeeps(s3, Drop(c));
  }

  /** A call that gets the lock at once. */
  lemma CallAndTake(s: State, ch: Channel)
    requires Inv(s)
    ensures var called := Next(s, CallStop(ch));
            && Inv(called) && Enabled(called, Take(ch))
            && (ch !in s.recordings ==> Next(called, Take(ch)) == s)
            && (ch in s.recordings ==>
                  var c := s.recordings[ch];
                  Next(called, Take(ch)) == State(s.recordings - {ch}, s.viewers, s.recs[c := s.recs[c].(stage := Taken)], s.calls))
  {
    StepKeeps(s, CallStop(ch));
    assert s.calls + multiset{ch} - multiset{ch} == s.calls;
  }

  // ----- The service -----

  datatype StartError = AlreadyRecording | NoSession

  class RecordingService {
    var recordings: map<Channel, Consumer>
    var viewers: set<Consumer>
    ghost var recs: map<Consumer, Rec>
    ghost var calls: multiset<Channel>

    ghost function View(): State
      reads this
    {
      State(recordings, viewers, recs, calls)
    }

    constructor ()
      ensures View() == INIT && Inv(View())
    {
      recordings, viewers, recs, calls := map[], {}, map[], multiset{};
    }

    /** startRecordingInternal and finalizeRecordingStart, all under the lock. */
    method StartRecording(ch: Channel, c: Consumer, ok: bool) returns (err: Option<StartError>)
      requires Inv(View()) && Enabled(View(), Start(ch, c, ok))
      modifies this
      ensures View() == Next(old(View()), Start(ch, c, ok)) && Inv(View())
      ensures err == if ch in old(recordings) then Some(AlreadyRecording) else if !ok then Some(NoSession) else None
    {
      StepKeeps(View(), Start(ch, c, ok));
      if ch in recordings { return Some(AlreadyRecording); }
      if !ok { return Some(NoSession); }
      recordings := recordings[ch := c];
      viewers := viewers + {c};
      recs := recs[c := Rec(ch, Live, Armed, 0, 0)];
      return None;
    }

    /** The part of stopRecordingInternal that holds the lock, for a call that was waiting. */
    method TakeRecording(ch: Channel) returns (taken: Option<Consumer>)
      requires Inv(View()) && Enabled(View(), Take(ch))
      modifies this
      ensures View() == Next(old(View()), Take(ch)) && Inv(View())
      ensures taken == if ch in old(recordings) then Some(old(recordings)[ch]) else None
      ensures taken.Some? ==> At(View(), taken.value, Taken)
    {
      StepKeeps(View(), Take(ch));
      calls := calls - multiset{ch};
      if ch !in recordings { return None; }
      var c := recordings[ch];
      recordings := recordings - {ch};
      recs := recs[c := recs[c].(stage := Taken)];
      return Some(c);
    }

    /** The part of stopRecordingInternal after the lock, if nothing interrupts it. */
    method FinishStop(c: Consumer, session: bool)
      requires Inv(View()) && At(View(), c, Taken)
      modifies this
      ensures Inv(View()) && recordings == old(recordings) && calls == old(calls) && Over(old(View()), View(), c, session)
    {
      ghost var after := RestOfStop(View(), c, session);
      recs := after.recs;
      viewers := viewers - {c};
      assert View() == after;
    }

    /** A stop that is not interleaved with anything: it leaves no trace of the recording. */
    method StopRecording(ch: Channel, session: bool) returns (found: bool)
      requires Inv(View())
      modifies this
      ensures Inv(View()) && found == (ch in old(recordings))
      ensures recordings == old(recordings) - {ch} && calls == old(calls)
      ensures found ==> Over(old(View()), View(), old(recordings)[ch], session)
      ensures !found ==> View() == old(View())
    {
      ghost var s := View();
      CallAndTake(s, ch);
      calls := calls + multiset{ch};
      assert View() == Next(s, CallStop(ch));
      var taken := TakeRecording(ch);
      assert View() == Next(Next(s, CallStop(ch)), Take(ch));
      if taken.None? { return false; }
      ghost var locked := View();
      FinishStop(taken.value, session);
      OverSince(s, locked, View(), taken.value, session);
      return true;
    }
  }
}
