/** Tailing the commit log of a session: a reader that follows a growing file, jumps to its end
    when the session was asked to seek, and polls at the end of the file.  The writer, the
    seeks and the reader's own steps can be interleaved in any way. */
module Tail {
  import opened Basics

  // ----- State -----

  /** Where the reader is: in newTailReader, between calls of Read, or at a point of Read's loop. */
  datatype Point =
    | Create        // about to load the seek version
    | CreateSeek    // about to seek to the end, because the session had been asked to seek before
    | Idle
    | CheckVersion
    | SeekEnd
    | ReadFile
    | CheckDone
    | Wait

  /** What the reader did: hand out bytes that lie at `from`, or jump because it saw a new seek version,
      when the file had `size` bytes. */
  datatype Event = Deliver(from: nat, data: seq<byte>) | Jump(from: nat, to: nat, version: nat, size: nat)

  datatype State = State(file: seq<byte>, version: nat, done: bool,
                         point: Point, offset: nat, seen: nat, events: seq<Event>)

  const INIT := State([], 0, false, Create, 0, 0, [])

  datatype Step =
    | Append(data: seq<byte>)     // the writer
    | Seek                        // Session.Seek
    | MarkDone
    | LoadVersion                 // newTailReader
    | SeekAtCreate
    | Call                        // TailReader.Read
    | LookVersion
    | SeekToEnd
    | Read(want: nat, count: nat)
    | ReadError
    | LookDone
    | Cancel
    | Timeout

  /** A read into a buffer of `want` bytes returns `count` of the bytes that are there, at least one if it can. */
  predicate ReadReturns(s: State, want: nat, count: nat) {
    && s.offset + count <= |s.file| && count <= want
    && (count == 0 ==> want == 0 || s.offset == |s.file|)
  }

  predicate Enabled(s: State, step: Step) {
    match step
    case Append(_) => true
    case Seek => true
    case MarkDone => true
    case LoadVersion => s.point == Create
    case SeekAtCreate => s.point == CreateSeek
    case Call => s.point == Idle
    case LookVersion => s.point == CheckVersion
    case SeekToEnd => s.point == SeekEnd
    case Read(want, count) => s.point == ReadFile && s.offset <= |s.file| && ReadReturns(s, want, count)
    case ReadError => s.point == ReadFile
    case LookDone => s.point == CheckDone
    case Cancel => s.point == Wait
    case Timeout => s.point == Wait
  }

  function JumpToEnd(s: State): State {
    s.(offset := |s.file|, events := s.events + [Jump(s.offset, |s.file|, s.seen, |s.file|)])
  }

  function Next(s: State, step: Step): State
    requires Enabled(s, step)
  {
    match step
    case Append(data) => s.(file := s.file + data)
    case Seek => s.(version := s.version + 1)
    case MarkDone => s.(done := true)
    case LoadVersion => s.(seen := s.version, point := if s.version > 0 then CreateSeek else Idle)
    case SeekAtCreate => JumpToEnd(s).(point := Idle)
    case Call => s.(point := CheckVersion)
    case LookVersion =>
      if s.version != s.seen then s.(seen := s.version, point := SeekEnd) else s.(point := ReadFile)
    case SeekToEnd => JumpToEnd(s).(point := ReadFile)
    case Read(want, count) =>
      if count > 0 then
        s.(offset := s.offset + count, point := Idle,
           events := s.events + [Deliver(s.offset, s.file[s.offset..s.offset + count])])
      else if want == 0 then s.(point := Idle)
      else s.(point := CheckDone)
    case ReadError => s.(point := Idle)
    case LookDone => s.(point := if s.done then Idle else Wait)
    case Cancel => s.(point := Idle)
    case Timeout => s.(point := CheckVersion)
  }

  ghost predicate IsRun(s: State, steps: seq<Step>)
    decreases |steps|
  {
    steps == [] || (Enabled(s, steps[0]) && IsRun(Next(s, steps[0]), steps[1..]))
  }

  ghost function RunFrom(s: State, steps: seq<Step>): State
    requires IsRun(s, steps)
    decreases |steps|
  {
    if steps == [] then s else RunFrom(Next(s, steps[0]), steps[1..])
  }

  // ----- The invariant -----

  /** Where an event starts and where it leaves the reader. */
  function From(e: Event): nat { e.from }
  function To(e: Event): nat { if e.Deliver? then e.from + |e.data| else e.to }

  /** An event on its own: delivered bytes are those of the file, a jump goes forward to the end. */
  ghost predicate Sound(e: Event, file: seq<byte>) {
    && To(e) <= |file|
    && (e.Deliver? ==> e.data != [] && e.data == file[e.from..e.from + |e.data|])
    && (e.Jump? ==> e.from <= e.to && e.to == e.size && e.version > 0)
  }

  /** The events follow each other without gaps from the start of the file to `end`. */
  ghost predicate Chained(events: seq<Event>, end: nat) {
    && (events == [] ==> end == 0)
    && (events != [] ==> From(events[0]) == 0 && To(events[|events| - 1]) == end)
    && (forall i | 0 <= i < |events| - 1 :: To(events[i]) == From(events[i + 1]))
  }

  /** Every jump answers a seek version of its own. */
  ghost predicate JumpsInOrder(events: seq<Event>, seen: nat) {
    && (forall i | 0 <= i < |events| && events[i].Jump? :: events[i].version <= seen)
    && (forall i, j | 0 <= i < j < |events| && events[i].Jump? && events[j].Jump? :: events[i].version < events[j].version)
  }

  ghost predicate Inv(s: State) {
    && s.offset <= |s.file|
    && s.seen <= s.version
    && (forall i | 0 <= i < |s.events| :: Sound(s.events[i], s.file))
    && Chained(s.events, s.offset)
    && JumpsInOrder(s.events, s.seen)
    && (s.point == Create ==> s.events == [] && s.seen == 0)
    && (s.point == CreateSeek || s.point == SeekEnd ==>
          s.seen > 0 && forall i | 0 <= i < |s.events| && s.events[i].Jump? :: s.events[i].version < s.seen)
  }

  lemma AppendKeeps(s: State, data: seq<byte>)
    requires Inv(s)
    ensures Inv(s.(file := s.file + data))
  {
    var file' := s.file + data;
    forall i | 0 <= i < |s.events| ensures Sound(s.events[i], file') {
      var e := s.events[i];
      if e.Deliver? {
        assert file'[e.from..e.from + |e.data|] == s.file[e.from..e.from + |e.data|];
      }
    }
  }

  lemma OneMoreEvent(s: State, e: Event)
    requires Inv(s) && Sound(e, s.file) && From(e) == s.offset
    requires e.Jump? ==> e.version <= s.seen && forall i | 0 <= i < |s.events| && s.events[i].Jump? :: s.events[i].version < e.version
    ensures Chained(s.events + [e], To(e)) && JumpsInOrder(s.events + [e], s.seen)
    ensures forall i | 0 <= i < |s.events| + 1 :: Sound((s.events + [e])[i], s.file)
  {
    var more := s.events + [e];
    forall i | 0 <= i < |more| - 1 ensures To(more[i]) == From(more[i + 1]) {
      if i < |s.events| - 1 {
        assert To(s.events[i]) == From(s.events[i + 1]);
      }
    }
  }

  lemma JumpKeeps(s: State, p: Point)
    requires Inv(s) && (s.point == CreateSeek || s.point == SeekEnd) && (p == Idle || p == ReadFile)
    ensures Inv(JumpToEnd(s).(point := p))
  {
    OneMoreEvent(s, Jump(s.offset, |s.file|, s.seen, |s.file|));
  }

  lemma ReadKeeps(s: State, want: nat, count: nat)
    requires Inv(s) && Enabled(s, Read(want, count))
    ensures Inv(Next(s, Read(want, count)))
  {
    if count > 0 {
      OneMoreEvent(s, Deliver(s.offset, s.file[s.offset..s.offset + count]));
    }
  }

  /** The reader loads a version that it has not seen: all its jumps were for earlier ones. */
  lemma LoadKeeps(s: State, p: Point)
    requires Inv(s) && s.point != CreateSeek && s.point != SeekEnd && p != Create
    requires p == CreateSeek || p == SeekEnd ==> s.version > s.seen
    ensures Inv(s.(seen := s.version, point := p))
  {
  }

  lemma MoveKeeps(s: State, p: Point)
    requires Inv(s) && p != Create && p != CreateSeek && p != SeekEnd
    ensures Inv(s.(point := p))
  {
  }

  lemma StepKeeps(s: State, step: Step)
    requires Inv(s) && Enabled(s, step)
    ensures Inv(Next(s, step))
  {
    match step
    case Append(data) => AppendKeeps(s, data);
    case Seek =>
    case MarkDone =>
    case LoadVersion => LoadKeeps(s, if s.version > 0 then CreateSeek else Idle);
    case SeekAtCreate => JumpKeeps(s, Idle);
    case SeekToEnd => JumpKeeps(s, ReadFile);
    case LookVersion => if s.version != s.seen { LoadKeeps(s, SeekEnd); } else { MoveKeeps(s, ReadFile); }
    case Read(want, count) => ReadKeeps(s, want, count);
    case _ => MoveKeeps(s, Next(s, step).point);
  }

  lemma {:induction false} RunKeeps(s: State, steps: seq<Step>)
    requires Inv(s) && IsRun(s, steps)
    ensures Inv(RunFrom(s, steps))
    decreases |steps|
  {
    if steps != [] {
      StepKeeps(s, steps[0]);
      RunKeeps(Next(s, steps[0]), steps[1..]);
    }
  }

  // ----- The session that the reader observes -----

  /** What the writer appended in a run, how often it was asked to seek, and whether it was done. */
  function Appended(steps: seq<Step>): seq<byte> {
    if steps == [] then []
    else (if steps[0].Append? then steps[0].data else []) + Appended(steps[1..])
  }

  function Seeks(steps: seq<Step>): nat {
    if steps == [] then 0 else (if steps[0].Seek? then 1 else 0) + Seeks(steps[1..])
  }

  lemma {:induction false} SessionOf(s: State, steps: seq<Step>)
    requires IsRun(s, steps)
    ensures var t := RunFrom(s, steps);
            && t.file == s.file + Appended(steps) && t.version == s.version + Seeks(steps)
            && (t.done <==> s.done || MarkDone in steps)
    decreases |steps|
  {
    if steps != [] {
      SessionOf(Next(s, steps[0]), steps[1..]);
    }
  }

  // ----- What follows for what is delivered -----

  lemma {:induction false} ChainIsOrdered(events: seq<Event>, file: seq<byte>, i: nat, j: nat)
    requires i < j < |events|
    requires forall k | 0 <= k < |events| :: Sound(events[k], file)
    requires forall k | 0 <= k < |events| - 1 :: To(events[k]) == From(events[k + 1])
    ensures To(events[i]) <= From(events[j])
    decreases j
  {
    assert To(events[j - 1]) == From(events[j]);
    if i < j - 1 {
      ChainIsOrdered(events, file, i, j - 1);
      assert Sound(events[j - 1], file);
    }
  }

  /** All delivered bytes, in order. */
  function Delivered(events: seq<Event>): seq<byte> {
    if events == [] then []
    else
      var e := events[|events| - 1];
      Delivered(events[..|events| - 1]) + (if e.Deliver? then e.data else [])
  }

  lemma ChainFront(events: seq<Event>, end: nat)
    requires Chained(events, end) && events != []
    ensures Chained(events[..|events| - 1], From(events[|events| - 1])) && To(events[|events| - 1]) == end
  {
    var front, e := events[..|events| - 1], events[|events| - 1];
    if front != [] {
      assert To(events[|events| - 2]) == From(events[|events| - 1]);
    }
    forall i | 0 <= i < |front| - 1 ensures To(front[i]) == From(front[i + 1]) {
      assert To(events[i]) == From(events[i + 1]);
    }
  }

  lemma {:induction false} NoJumpsIsPrefix(events: seq<Event>, file: seq<byte>, end: nat)
    requires end <= |file| && Chained(events, end)
    requires forall k | 0 <= k < |events| :: Sound(events[k], file) && events[k].Deliver?
    ensures Delivered(events) == file[..end]
    decreases |events|
  {
    if events != [] {
      var e := events[|events| - 1];
      assert Sound(e, file);
      ChainFront(events, end);
      NoJumpsIsPrefix(events[..|events| - 1], file, e.from);
      assert file[..e.from] + file[e.from..end] == file[..end];
    }
  }

  /** In every interleaving of appends, seeks and reads: delivered bytes are the file's bytes at their offsets, the
      offsets strictly increase and no byte is delivered twice; bytes are skipped only by jumps to what is the
      end of the file at the time (JumpsToTheEnd), at most one for each seek version; and as long as there was no seek, what
      was delivered is exactly the file up to the reader's offset. */
  lemma EveryRun(steps: seq<Step>)
    requires IsRun(INIT, steps)
    ensures var s := RunFrom(INIT, steps);
            && s.file == Appended(steps) && s.version == Seeks(steps)
            && (forall i | 0 <= i < |s.events| && s.events[i].Deliver? ::
                  && 0 < |s.events[i].data| && To(s.events[i]) <= |s.file|
                  && s.events[i].data == s.file[s.events[i].from..To(s.events[i])])
            && (forall i, j | 0 <= i < j < |s.events| && s.events[i].Deliver? && s.events[j].Deliver? ::
                  s.events[i].from < To(s.events[i]) <= s.events[j].from)
            && Chained(s.events, s.offset)
            && JumpsInOrder(s.events, s.version)
            && (forall i | 0 <= i < |s.events| && s.events[i].Jump? ::
                  0 < s.events[i].version && s.events[i].from <= s.events[i].to == s.events[i].size <= |s.file|)
            && (s.version == 0 ==> s.offset <= |s.file| && Delivered(s.events) == s.file[..s.offset])
  {
    assert Inv(INIT);
    RunKeeps(INIT, steps);
    SessionOf(INIT, steps);
    var s := RunFrom(INIT, steps);
    forall i | 0 <= i < |s.events| ensures Sound(s.events[i], s.file) {}
    forall i, j | 0 <= i < j < |s.events| ensures To(s.events[i]) <= From(s.events[j]) {
      ChainIsOrdered(s.events, s.file, i, j);
    }
    if s.version == 0 {
      NoJumpsIsPrefix(s.events, s.file, s.offset);
    }
  }

  /** A step that moves the reader hands out the bytes it passes, or takes the reader to the end of the file as it then
      is, for a seek version that it has not jumped for. */
  lemma JumpsToTheEnd(s: State, step: Step)
    requires Inv(s) && Enabled(s, step)
    ensures var s' := Next(s, step);
            s'.offset != s.offset ==>
              || (s.offset < s'.offset <= |s.file| && s'.events == s.events + [Deliver(s.offset, s.file[s.offset..s'.offset])])
              || (s'.offset == |s.file| && s'.events == s.events + [Jump(s.offset, |s.file|, s.seen, |s.file|)]
                  && forall i | 0 <= i < |s.events| && s.events[i].Jump? :: s.events[i].version < s.seen)
  {
  }

  /** The file is read only right after a look at the seek version: the reader comes to that point straight from a look that
      found nothing new, or from the jump that follows a look that did. */
  lemma ReadsAfterLook(s: State, step: Step)
    requires Enabled(s, step) && s.point != ReadFile && Next(s, step).point == ReadFile
    ensures s.point in {CheckVersion, SeekEnd}
    ensures s.point == CheckVersion ==> Next(s, step).seen == s.version && Next(s, step).offset == s.offset
    ensures s.point == SeekEnd ==> Next(s, step).offset == |s.file|
  {
  }

  /** A look that finds a new version is followed by a jump, and by nothing else of the reader's. */
  lemma NewVersionJumps(s: State, step: Step)
    requires Enabled(s, step)
    ensures s.point == CheckVersion && s.version != s.seen && Next(s, step).point != CheckVersion ==>
              Next(s, step).point == SeekEnd && Next(s, step).seen == s.version
    ensures s.point == SeekEnd && Next(s, step).point != SeekEnd ==>
              Next(s, step).point == ReadFile && Next(s, step).offset == |s.file|
  {
  }

  /** A call returns only with bytes, for an empty buffer, on an error, at the end of a session that is done, or because
      the caller has gone; otherwise it waits and starts again with a look at the version. */
  lemma CallReturnsOnly(s: State, step: Step)
    requires Enabled(s, step) && s.point !in {Create, CreateSeek, Idle}
    ensures Next(s, step).point == Idle ==>
              || (step.Read? && (step.count > 0 || step.want == 0)) || step.ReadError?
              || (step.LookDone? && s.done) || step.Cancel?
    ensures s.point == CheckDone && step.LookDone? ==> Next(s, step).point == if s.done then Idle else Wait
    ensures s.point == Wait && step.Timeout? ==> Next(s, step).point == CheckVersion
    ensures s.point == ReadFile && Next(s, step).point !in {ReadFile, Idle} ==>
              Next(s, step).point == CheckDone && step.Read? && step.count == 0 && s.offset == |s.file|
  {
  }

  // ----- What a reader that is left alone gets to -----

  lemma StepThen(s: State, step: Step, rest: seq<Step>)
    requires Enabled(s, step) && IsRun(Next(s, step), rest)
    ensures IsRun(s, [step] + rest) && RunFrom(s, [step] + rest) == RunFrom(Next(s, step), rest)
  {
    assert ([step] + rest)[1..] == rest;
  }

  /** A new reader starts at the beginning of the file, or at its end if the session was ever asked to seek. */
  lemma Created(s: State) returns (steps: seq<Step>)
    requires s.point == Create
    ensures IsRun(s, steps)
    ensures var t := RunFrom(s, steps);
            && t.point == Idle && t.seen == s.version
            && (s.version == 0 ==> t.offset == s.offset && t.events == s.events)
            && (s.version > 0 ==> t.offset == |s.file|)
  {
    var s1 := Next(s, LoadVersion);
    if s.version > 0 {
      StepThen(s1, SeekAtCreate, []);
      StepThen(s, LoadVersion, [SeekAtCreate] + []);
      steps := [LoadVersion] + ([SeekAtCreate] + []);
    } else {
      StepThen(s, LoadVersion, []);
      steps := [LoadVersion] + [];
    }
  }

  /** A call without a new seek version can return any number of the bytes that are there and fit the buffer. */
  lemma CallDelivers(s: State, want: nat, count: nat) returns (steps: seq<Step>)
    requires s.point == Idle && s.seen == s.version && 0 < count <= want && s.offset + count <= |s.file|
    ensures IsRun(s, steps)
    ensures var t := RunFrom(s, steps);
            && t.point == Idle && t.offset == s.offset + count
            && t.events == s.events + [Deliver(s.offset, s.file[s.offset..s.offset + count])]
  {
    var s1 := Next(s, Call);
    var s2 := Next(s1, LookVersion);
    StepThen(s2, Read(want, count), []);
    StepThen(s1, LookVersion, [Read(want, count)] + []);
    StepThen(s, Call, [LookVersion] + ([Read(want, count)] + []));
    steps := [Call] + ([LookVersion] + ([Read(want, count)] + []));
  }

  /** A call at the end of the file returns if the session is done, and otherwise waits, until the caller has gone or
      it is time to look again; a failing read returns too. */
  lemma CallAtEnd(s: State, want: nat)
    requires s.point == ReadFile && s.offset == |s.file| && want > 0
    ensures Enabled(s, Read(want, 0)) && Enabled(s, ReadError) && Next(s, ReadError).point == Idle
    ensures var end := Next(s, Read(want, 0));
            && Enabled(end, LookDone) && Next(end, LookDone).point == (if s.done then Idle else Wait)
            && (!s.done ==>
                  var waiting := Next(end, LookDone);
                  && Enabled(waiting, Cancel) && Next(waiting, Cancel).point == Idle
                  && Enabled(waiting, Timeout) && Next(waiting, Timeout).point == CheckVersion)
    ensures Next(s, Read(want, 0)).events == s.events && Next(s, Read(want, 0)).offset == s.offset
  {
  }

  /** A call with a new seek version goes to the end of the file before it reads. */
  lemma CallAfterSeek(s: State) returns (steps: seq<Step>)
    requires s.point == Idle && s.seen != s.version
    ensures IsRun(s, steps)
    ensures var t := RunFrom(s, steps);
            && t.point == ReadFile && t.seen == s.version && t.offset == |s.file|
            && t.events == s.events + [Jump(s.offset, |s.file|, s.version, |s.file|)]
  {
    var s1 := Next(s, Call);
    var s2 := Next(s1, LookVersion);
    StepThen(s2, SeekToEnd, []);
    StepThen(s1, LookVersion, [SeekToEnd] + []);
    StepThen(s, Call, [LookVersion] + ([SeekToEnd] + []));
    steps := [Call] + ([LookVersion] + ([SeekToEnd] + []));
  }

  // ----- The reader -----

  /** What one round of Read's loop observes: the seek version, the file when it seeks and when it
      reads, whether the read fails, whether the session is done, and whether the caller has gone. */
  datatype Observation = Observation(version: nat, atSeek: seq<byte>, atRead: seq<byte>, fails: bool, done: bool, gone: bool)

  /** Nothing is the result of reading into an empty buffer. */
  datatype Result = Data(data: seq<byte>) | Nothing | Failure | EOF | Cancelled | Pending

  ghost predicate Growing(obs: seq<Observation>, offset: nat) {
    && (forall i | 0 <= i < |obs| :: offset <= |obs[i].atSeek| && obs[i].atSeek <= obs[i].atRead)
    && (forall i, j | 0 <= i < j < |obs| :: obs[i].atRead <= obs[j].atSeek)
  }

  /** The version that a reader with version v knows after n rounds, and where it stands if it has read nothing: at
      the end that the file had in the last round with a version it did not know. */
  ghost function Known(obs: seq<Observation>, n: nat, v: nat): nat
    requires n <= |obs|
  {
    if n == 0 then v else obs[n - 1].version
  }

  ghost function Position(obs: seq<Observation>, n: nat, offset: nat, v: nat): nat
    requires n <= |obs|
  {
    if n == 0 then offset
    else if obs[n - 1].version != Known(obs, n - 1, v) then |obs[n - 1].atSeek|
    else Position(obs, n - 1, offset, v)
  }

  /** Round i found the reader at the end of the file and gave no reason to return. */
  ghost predicate FoundNothing(obs: seq<Observation>, i: nat, offset: nat, v: nat)
    requires i < |obs|
  {
    !obs[i].fails && !obs[i].done && !obs[i].gone && Position(obs, i + 1, offset, v) == |obs[i].atRead|
  }

  /** What a round that started reading at `start` returns, and where it leaves the reader. */
  ghost predicate Outcome(r: Result, want: nat, o: Observation, start: nat, offset: nat) {
    match r
    case Data(data) => !o.fails && 0 < |data| <= want && offset == start + |data| <= |o.atRead| && data == o.atRead[start..offset]
    case Nothing => want == 0 && offset == start && !o.fails
    case Failure => o.fails && offset == start
    case EOF => o.done && !o.fails && offset == start == |o.atRead|
    case Cancelled => o.gone && !o.done && !o.fails && offset == start == |o.atRead|
    case Pending => false
  }

  class TailReader {
    var offset: nat
    var seekVersion: nat

    /** `size` is the size of the file when the constructor seeks. */
    constructor (version: nat, size: nat)
      ensures seekVersion == version && offset == if version > 0 then size else 0
    {
      offset := if version > 0 then size else 0;
      seekVersion := version;
    }

    /** One round of the loop; None if it polls again. */
    method Round(want: nat, o: Observation) returns (r: Option<Result>, ghost start: nat)
      requires offset <= |o.atSeek| && o.atSeek <= o.atRead
      modifies this
      ensures seekVersion == o.version && start == (if o.version != old(seekVersion) then |o.atSeek| else old(offset))
      ensures r.Some? ==> Outcome(r.value, want, o, start, offset)
      ensures r.None? ==> !o.fails && !o.done && !o.gone && offset == start == |o.atRead|
    {
      if o.version != seekVersion {
        seekVersion := o.version;
        offset := |o.atSeek|;
      }
      start := offset;
      if o.fails {
        return Some(Failure), start;
      }
      if want == 0 {
        return Some(Nothing), start;
      }
      var left := |o.atRead| - offset;
      var n := if left < want then left else want;
      if n > 0 {
        var data := o.atRead[offset..offset + n];
        offset := offset + n;
        return Some(Data(data)), start;
      }
      if o.done {
        return Some(EOF), start;
      }
      if o.gone {
        return Some(Cancelled), start;
      }
      return None, start;
    }

    /** Read with a buffer of `want` bytes, over the rounds of its loop; Pending if it is still polling at the end of
        `obs`.  The last round it began is round `rounds - 1`; in the rounds before it found nothing to read, and it
        read from `start`. */
    method Read(want: nat, obs: seq<Observation>) returns (r: Result, ghost start: nat, ghost rounds: nat)
      requires Growing(obs, offset)
      modifies this
      ensures rounds <= |obs|
      ensures old(offset) <= start == Position(obs, rounds, old(offset), old(seekVersion))
      ensures seekVersion == Known(obs, rounds, old(seekVersion))
      ensures forall i | 0 <= i < rounds - 1 :: FoundNothing(obs, i, old(offset), old(seekVersion))
      ensures !r.Pending? ==> rounds > 0 && Outcome(r, want, obs[rounds - 1], start, offset)
      ensures r.Pending? ==> rounds == |obs| && offset == start
    {
      start, rounds := offset, 0;
      for i := 0 to |obs|
        invariant start == offset && old(offset) <= offset && rounds == i
        invariant offset == Position(obs, i, old(offset), old(seekVersion))
        invariant seekVersion == Known(obs, i, old(seekVersion))
        invariant forall j | 0 <= j < i :: FoundNothing(obs, j, old(offset), old(seekVersion))
      {
        rounds := i + 1;
        assert i > 0 ==> FoundNothing(obs, i - 1, old(offset), old(seekVersion)) && obs[i - 1].atRead <= obs[i].atSeek;
        var result;
        result, start := Round(want, obs[i]);
        if result.Some? {
          return result.value, start, rounds;
        }
      }
      return Pending, start, rounds;
    }
  }
}
