/** Scheduled recordings: records that are pending, recording, completed or failed, and the
    periodic tick that moves them on.  Times are instants on one clock. */
module Scheduler {
  import opened Basics

  type Id = nat
  datatype Status = Pending | Recording | Completed | Failed
  datatype Record = Record(id: Id, user: string, channel: string, start: int, stop: int, status: Status)

  /** The outcome of asking the recording service to start. */
  datatype StartResult = Started | AlreadyRecording | StartFailed

  // ----- The store -----

  // Every write changes the list in memory first and saves it to a file then; what it reports is whether
  // the file was saved.

  ghost predicate DistinctIds(rs: seq<Record>) {
    forall i, j | 0 <= i < j < |rs| :: rs[i].id != rs[j].id
  }

  function SetStatus(rs: seq<Record>, id: Id, st: Status): (r: seq<Record>)
    ensures |r| == |rs|
  {
    if rs == [] then []
    else if rs[0].id == id then [rs[0].(status := st)] + rs[1..]
    else [rs[0]] + SetStatus(rs[1..], id, st)
  }

  function RemoveId(rs: seq<Record>, id: Id): (r: seq<Record>)
    ensures |r| <= |rs|
  {
    if rs == [] then []
    else if rs[0].id == id then rs[1..]
    else [rs[0]] + RemoveId(rs[1..], id)
  }

  lemma {:induction false} SetStatusAt(rs: seq<Record>, k: nat, st: Status)
    requires DistinctIds(rs) && k < |rs|
    ensures SetStatus(rs, rs[k].id, st) == rs[k := rs[k].(status := st)]
  {
    var r := rs[k].(status := st);
    if k == 0 {
      assert rs[0 := r] == [r] + rs[1..];
    } else {
      assert rs[0].id != rs[k].id;
      SetStatusAt(rs[1..], k - 1, st);
      assert rs[k := r] == [rs[0]] + rs[1..][k - 1 := r];
    }
  }

  lemma SetTwice(rs: seq<Record>, k: nat, a: Status, b: Status)
    requires DistinctIds(rs) && k < |rs|
    ensures SetStatus(rs[k := rs[k].(status := a)], rs[k].id, b) == rs[k := rs[k].(status := b)]
  {
    var once := rs[k := rs[k].(status := a)];
    SameIds(rs, once);
    SetStatusAt(once, k, b);
    assert once[k := once[k].(status := b)] == rs[k := rs[k].(status := b)];
  }

  lemma {:induction false} RemoveIdAt(rs: seq<Record>, k: nat)
    requires DistinctIds(rs) && k < |rs|
    ensures RemoveId(rs, rs[k].id) == rs[..k] + rs[k + 1..]
  {
    if k > 0 {
      assert rs[0].id != rs[k].id;
      RemoveIdAt(rs[1..], k - 1);
      assert rs[..k] + rs[k + 1..] == [rs[0]] + (rs[1..][..k - 1] + rs[1..][k..]);
    }
  }

  // ----- What a tick does to one record -----

  /** What the world answers during a tick at time t: whether the marks of a start and of a restart are saved, the
      results of starts and restarts, whether a record's channel has a session, and the later clock readings while
      active records are looked at. */
  datatype World = World(t: int, marks: Id -> bool, remarks: Id -> bool, starts: Id -> StartResult, restarts: Id -> StartResult,
                         sessions: Id -> bool, now1: Id -> int, now2: Id -> int)

  /** Clocks do not run backwards. */
  ghost predicate Forward(w: World) {
    forall id: Id :: w.t <= w.now1(id) <= w.now2(id)
  }

  /** The status after startRecording: a record whose mark is not saved is marked all the same, but nothing is started. */
  function AfterStart(saved: bool, result: StartResult): Status {
    if saved && result.StartFailed? then Failed else Recording
  }

  predicate Missed(r: Record, t: int) {
    r.status == Pending && r.stop < t
  }

  predicate Due(r: Record, t: int) {
    r.status == Pending && r.start <= t
  }

  function StartRecord(r: Record, w: World): Record {
    if Due(r, w.t) then r.(status := AfterStart(w.marks(r.id), w.starts(r.id))) else r
  }

  function MonitorRecord(r: Record, w: World): Record {
    if r.status != Recording then r
    else if r.stop < w.now1(r.id) then r.(status := Completed)
    else if w.sessions(r.id) then r
    else if r.stop < w.now2(r.id) then r.(status := Failed)
    else r.(status := AfterStart(w.remarks(r.id), w.restarts(r.id)))
  }

  /** A record after a tick; None if it was removed. */
  function TickRecord(r: Record, w: World): Option<Record> {
    if Missed(r, w.t) then None else Some(MonitorRecord(StartRecord(r, w), w))
  }

  function TickAll(rs: seq<Record>, w: World): seq<Record> {
    if rs == [] then []
    else
      var last := TickRecord(rs[|rs| - 1], w);
      TickAll(rs[..|rs| - 1], w) + (if last.Some? then [last.value] else [])
  }

  // ----- Scheduling -----

  predicate Live(r: Record) {
    r.status == Pending || r.status == Recording
  }

  /** The range query: live records of the same user and channel that overlap. */
  predicate Conflicts(r: Record, n: Record) {
    r.channel == n.channel && r.user == n.user && Live(r) && r.start < n.stop && r.stop > n.start
  }

  datatype ScheduleError = NoChannel | ChannelDisabled | TooLate | BadInterval | Conflict | CreateFailed

  /** The channel store's answer, the time of the call and of the second clock reading, the configured cutoff and lead
      time, whether the new record and its mark are saved, and what starting at once would give. */
  datatype Request = Request(channelExists: bool, channelEnabled: bool, now: int, later: int, cutoff: int, lead: int,
                             created: bool, marked: bool, result: StartResult)

  /** What is wrong with the request itself. */
  function ScheduleCheck(rs: seq<Record>, n: Record, q: Request): Option<ScheduleError> {
    if !q.channelExists then Some(NoChannel)
    else if !q.channelEnabled then Some(ChannelDisabled)
    else if n.start < q.now - q.cutoff then Some(TooLate)
    else if n.stop <= n.start then Some(BadInterval)
    else if exists i :: 0 <= i < |rs| && Conflicts(rs[i], n) then Some(Conflict)
    else None
  }

  function ScheduleResult(rs: seq<Record>, n: Record, q: Request): Option<ScheduleError> {
    if ScheduleCheck(rs, n, q).Some? then ScheduleCheck(rs, n, q) else if q.created then None else Some(CreateFailed)
  }

  function ScheduleAll(rs: seq<Record>, n: Record, q: Request): seq<Record> {
    if ScheduleCheck(rs, n, q).Some? then rs
    else rs + [if q.created && n.start < q.later + q.lead then n.(status := AfterStart(q.marked, q.result)) else n]
  }

  function DeleteAll(rs: seq<Record>, id: Id, user: string, isAdmin: bool): seq<Record> {
    if exists i :: 0 <= i < |rs| && rs[i].id == id && (isAdmin || rs[i].user == user)
    then RemoveId(rs, id) else rs
  }

  datatype DeleteError = NotFound | NotAuthorized | NotSaved

  // ----- The service -----

  class SchedulerService {
    var records: seq<Record>

    constructor ()
      ensures records == []
    {
      records := [];
    }

    method UpdateStatus(id: Id, st: Status)
      modifies this
      ensures records == SetStatus(old(records), id, st)
    {
      records := SetStatus(records, id, st);
    }

    /** `asked` tells whether the recording service is asked to start. */
    method StartRecording(r: Record, saved: bool, result: StartResult, ghost k: nat) returns (asked: bool)
      requires DistinctIds(records) && k < |records| && records[k].id == r.id
      modifies this
      ensures asked == saved
      ensures records == old(records)[k := old(records)[k].(status := AfterStart(saved, result))]
    {
      ghost var was := records;
      SetStatusAt(was, k, Recording);
      UpdateStatus(r.id, Recording);
      if !saved { return false; }
      if result.StartFailed? {
        SetTwice(was, k, Recording, Failed);
        UpdateStatus(r.id, Failed);
      }
      return true;
    }

    /** Deleting the pending records whose time is over; the loop runs over a copy of the list. */
    method RemoveMissed(t: int)
      requires DistinctIds(records)
      modifies this
      ensures records == KeepUnmissed(old(records), t)
    {
      var listed := records;
      assert Halfway(listed, 0, t) == listed;
      for i := 0 to |listed|
        invariant records == Halfway(listed, i, t)
      {
        HalfwayStep(listed, i, t);
        if Missed(listed[i], t) {
          records := RemoveId(records, listed[i].id);
        }
      }
      HalfwayEnd(listed, t);
    }

    /** Starting the pending records that are due; the loop runs over a copy of the list. */
    method StartDue(w: World)
      requires DistinctIds(records)
      modifies this
      ensures |records| == |old(records)|
      ensures forall k | 0 <= k < |records| :: records[k] == StartRecord(old(records)[k], w)
    {
      var listed := records;
      for i := 0 to |listed|
        invariant |records| == |listed|
        invariant forall k | 0 <= k < i :: records[k] == StartRecord(listed[k], w)
        invariant forall k | i <= k < |listed| :: records[k] == listed[k]
      {
        if Due(listed[i], w.t) {
          SameIds(listed, records);
          var id := listed[i].id;
          var _ := StartRecording(listed[i], w.marks(id), w.starts(id), i);
        }
      }
    }

    /** Looking after the active records; the loop runs over a copy of the list. */
    method MonitorActive(w: World)
      requires DistinctIds(records)
      modifies this
      ensures |records| == |old(records)|
      ensures forall k | 0 <= k < |records| :: records[k] == MonitorRecord(old(records)[k], w)
    {
      var listed := records;
      for i := 0 to |listed|
        invariant |records| == |listed|
        invariant forall k | 0 <= k < i :: records[k] == MonitorRecord(listed[k], w)
        invariant forall k | i <= k < |listed| :: records[k] == listed[k]
      {
        var r := listed[i];
        if r.status == Recording {
          SameIds(listed, records);
          if r.stop < w.now1(r.id) {
            SetStatusAt(records, i, Completed);
            UpdateStatus(r.id, Completed);
          } else if !w.sessions(r.id) {
            if r.stop < w.now2(r.id) {
              SetStatusAt(records, i, Failed);
              UpdateStatus(r.id, Failed);
            } else {
              var _ := StartRecording(r, w.remarks(r.id), w.restarts(r.id), i);
            }
          }
        }
      }
    }

    /** The loops of a tick together move every record on its own, in place. */
    method Tick(w: World)
      requires DistinctIds(records)
      modifies this
      ensures records == TickAll(old(records), w) && DistinctIds(records)
    {
      ghost var before := records;
      RemoveMissed(w.t);
      ghost var kept := records;
      KeptDistinct(before, |before|, w.t);
      assert before[..|before|] == before && before[|before|..] == [];
      assert KeepUnmissed(before, w.t) + [] == kept;
      StartDue(w);
      ghost var started := records;
      assert DistinctIds(started);
      MonitorActive(w);
      TickInPhases(before, w, records);
    }

    method Schedule(n: Record, q: Request) returns (err: Option<ScheduleError>)
      requires DistinctIds(records) && n.status == Pending && forall i | 0 <= i < |records| :: records[i].id != n.id
      modifies this
      ensures err == ScheduleResult(old(records), n, q)
      ensures records == ScheduleAll(old(records), n, q)
    {
      if !q.channelExists { return Some(NoChannel); }
      if !q.channelEnabled { return Some(ChannelDisabled); }
      if n.start < q.now - q.cutoff { return Some(TooLate); }
      if n.stop <= n.start { return Some(BadInterval); }
      for i := 0 to |records|
        invariant forall k | 0 <= k < i :: !Conflicts(records[k], n)
      {
        if Conflicts(records[i], n) { return Some(Conflict); }
      }
      records := records + [n];
      if !q.created { return Some(CreateFailed); }
      if n.start < q.later + q.lead {
        var _ := StartRecording(n, q.marked, q.result, |records| - 1);
      }
      return None;
    }

    /** `stopped` is the channel whose recording is stopped before the record is deleted, `saved` whether the shorter list is saved. */
    method Delete(id: Id, user: string, isAdmin: bool, saved: bool) returns (err: Option<DeleteError>, stopped: Option<string>)
      requires DistinctIds(records)
      modifies this
      ensures records == DeleteAll(old(records), id, user, isAdmin)
      ensures err == Some(NotFound) <==> forall i | 0 <= i < |old(records)| :: old(records)[i].id != id
      ensures forall i | 0 <= i < |old(records)| && old(records)[i].id == id ::
                var r := old(records)[i];
                var allowed := isAdmin || r.user == user;
                && (err == Some(NotAuthorized) <==> !allowed)
                && (err == Some(NotSaved) <==> allowed && !saved)
                && stopped == if allowed && r.status == Recording then Some(r.channel) else None
      ensures err == Some(NotFound) ==> stopped == None
      ensures err in {Some(NotFound), Some(NotAuthorized)} ==> records == old(records)
      ensures err in {None, Some(NotSaved)} ==>
                exists k :: 0 <= k < |old(records)| && old(records)[k].id == id
                            && records == old(records)[..k] + old(records)[k + 1..]
    {
      for i := 0 to |records|
        invariant forall k | 0 <= k < i :: records[k].id != id
      {
        if records[i].id == id {
          if !isAdmin && records[i].user != user { return Some(NotAuthorized), None; }
          RemoveIdAt(records, i);
          stopped := if records[i].status == Recording then Some(records[i].channel) else None;
          records := RemoveId(records, id);
          return if saved then None else Some(NotSaved), stopped;
        }
      }
      return Some(NotFound), None;
    }
  }

  function KeepUnmissed(rs: seq<Record>, t: int): (r: seq<Record>)
    ensures |r| <= |rs|
  {
    if rs == [] then []
    else KeepUnmissed(rs[..|rs| - 1], t) + (if Missed(rs[|rs| - 1], t) then [] else [rs[|rs| - 1]])
  }

  lemma KeepOneMore(rs: seq<Record>, i: nat, t: int)
    requires i < |rs|
    ensures KeepUnmissed(rs[..i + 1], t) == KeepUnmissed(rs[..i], t) + (if Missed(rs[i], t) then [] else [rs[i]])
  {
    assert rs[..i + 1][..i] == rs[..i];
  }

  /** The list after i rounds of the loop: what is kept of the first i records, and the rest. */
  function Halfway(rs: seq<Record>, i: nat, t: int): seq<Record>
    requires i <= |rs|
  {
    KeepUnmissed(rs[..i], t) + rs[i..]
  }

  lemma HalfwayStep(rs: seq<Record>, i: nat, t: int)
    requires DistinctIds(rs) && i < |rs|
    ensures Halfway(rs, i + 1, t) ==
            if Missed(rs[i], t) then RemoveId(Halfway(rs, i, t), rs[i].id) else Halfway(rs, i, t)
  {
    var kept, all := KeepUnmissed(rs[..i], t), Halfway(rs, i, t);
    KeepOneMore(rs, i, t);
    if Missed(rs[i], t) {
      KeptDistinct(rs, i, t);
      assert all[|kept|] == rs[i];
      RemoveIdAt(all, |kept|);
      assert all[..|kept|] == kept && all[|kept| + 1..] == rs[i + 1..];
    } else {
      assert [rs[i]] + rs[i + 1..] == rs[i..];
      Assoc(kept, [rs[i]], rs[i + 1..]);
    }
  }

  lemma HalfwayEnd(rs: seq<Record>, t: int)
    ensures Halfway(rs, |rs|, t) == KeepUnmissed(rs, t)
  {
    assert rs[..|rs|] == rs && rs[|rs|..] == [];
  }

  /** What is kept of a prefix comes from that prefix. */
  lemma {:induction false} KeptFrom(rs: seq<Record>, t: int, a: nat) returns (i: nat)
    requires a < |KeepUnmissed(rs, t)|
    ensures i < |rs| && KeepUnmissed(rs, t)[a] == rs[i] && !Missed(rs[i], t) && a <= i
  {
    var front := rs[..|rs| - 1];
    if a < |KeepUnmissed(front, t)| {
      i := KeptFrom(front, t, a);
    } else {
      i := |rs| - 1;
    }
  }

  lemma {:induction false} KeptInOrder(rs: seq<Record>, t: int, a: nat, b: nat) returns (i: nat, j: nat)
    requires a < b < |KeepUnmissed(rs, t)|
    ensures i < j < |rs| && KeepUnmissed(rs, t)[a] == rs[i] && KeepUnmissed(rs, t)[b] == rs[j]
  {
    var front := rs[..|rs| - 1];
    if b < |KeepUnmissed(front, t)| {
      i, j := KeptInOrder(front, t, a, b);
    } else {
      i := KeptFrom(front, t, a);
      j := |rs| - 1;
    }
  }

  lemma KeptDistinct(rs: seq<Record>, n: nat, t: int)
    requires DistinctIds(rs) && n <= |rs|
    ensures DistinctIds(KeepUnmissed(rs[..n], t) + rs[n..])
  {
    var kept := KeepUnmissed(rs[..n], t);
    var all := kept + rs[n..];
    forall a, b | 0 <= a < b < |all| ensures all[a].id != all[b].id {
      if b < |kept| {
        var i, j := KeptInOrder(rs[..n], t, a, b);
      } else if a < |kept| {
        var i := KeptFrom(rs[..n], t, a);
      }
    }
  }

  lemma SameIds(a: seq<Record>, b: seq<Record>)
    requires |a| == |b| && DistinctIds(a) && forall k | 0 <= k < |a| :: a[k].id == b[k].id
    ensures DistinctIds(b)
  {
  }

  lemma {:induction false} TickInPhases(rs: seq<Record>, w: World, out: seq<Record>)
    requires var kept := KeepUnmissed(rs, w.t);
             |out| == |kept| && forall k | 0 <= k < |kept| :: out[k] == MonitorRecord(StartRecord(kept[k], w), w)
    ensures out == TickAll(rs, w)
    decreases |rs|
  {
    if rs != [] {
      var front, last := rs[..|rs| - 1], rs[|rs| - 1];
      var kept := KeepUnmissed(rs, w.t);
      if Missed(last, w.t) {
        assert kept == KeepUnmissed(front, w.t);
        TickInPhases(front, w, out);
        assert out == TickAll(front, w) + [];
      } else {
        TickInPhases(front, w, out[..|out| - 1]);
        assert out == out[..|out| - 1] + [out[|out| - 1]];
      }
    }
  }

  // ----- What holds over every run -----

  ghost predicate Overlap(a: Record, b: Record) {
    a.channel == b.channel && a.user == b.user && a.start < b.stop && b.start < a.stop
  }

  ghost predicate Inv(rs: seq<Record>) {
    && DistinctIds(rs)
    && (forall i | 0 <= i < |rs| :: rs[i].start < rs[i].stop)
    && (forall i, j | 0 <= i < j < |rs| && Live(rs[i]) && Live(rs[j]) :: !Overlap(rs[i], rs[j]))
  }

  /** The same record as far as nobody changes it. */
  predicate SameSlot(a: Record, b: Record) {
    a.id == b.id && a.user == b.user && a.channel == b.channel && a.start == b.start && a.stop == b.stop
  }

  /** A record only goes forward: it keeps its slot, a finished one keeps its status, none comes back to life. */
  predicate Forwards(a: Record, b: Record) {
    && SameSlot(a, b)
    && (Live(b) ==> Live(a))
    && (!Live(a) ==> a == b)
    && (b.status == Pending ==> a.status == Pending)
  }

  lemma TickForward(r: Record, w: World)
    ensures TickRecord(r, w).Some? ==> Forwards(r, TickRecord(r, w).value)
    ensures TickRecord(r, w).None? ==> r.status == Pending
  {
  }

  /** Every record of the new list comes from one of the old list, in order. */
  lemma {:induction false} TickOrigin(rs: seq<Record>, w: World, a: nat) returns (i: nat)
    requires a < |TickAll(rs, w)|
    ensures i < |rs| && TickRecord(rs[i], w) == Some(TickAll(rs, w)[a])
    decreases |rs|
  {
    var front := rs[..|rs| - 1];
    if a < |TickAll(front, w)| {
      i := TickOrigin(front, w, a);
    } else {
      i := |rs| - 1;
    }
  }

  lemma {:induction false} TickOrigins(rs: seq<Record>, w: World, a: nat, b: nat) returns (i: nat, j: nat)
    requires a < b < |TickAll(rs, w)|
    ensures i < j < |rs| && TickRecord(rs[i], w) == Some(TickAll(rs, w)[a]) && TickRecord(rs[j], w) == Some(TickAll(rs, w)[b])
    decreases |rs|
  {
    var front := rs[..|rs| - 1];
    if b < |TickAll(front, w)| {
      i, j := TickOrigins(front, w, a, b);
    } else {
      i := TickOrigin(front, w, a);
      j := |rs| - 1;
    }
  }

  /** Every record of the old list that is not removed is in the new list. */
  lemma {:induction false} TickImage(rs: seq<Record>, w: World, i: nat) returns (a: nat)
    requires i < |rs| && TickRecord(rs[i], w).Some?
    ensures a < |TickAll(rs, w)| && TickAll(rs, w)[a] == TickRecord(rs[i], w).value
    decreases |rs|
  {
    if i == |rs| - 1 {
      a := |TickAll(rs[..|rs| - 1], w)|;
    } else {
      a := TickImage(rs[..|rs| - 1], w, i);
    }
  }

  lemma TickKeeps(rs: seq<Record>, w: World)
    requires Inv(rs)
    ensures Inv(TickAll(rs, w))
  {
    var out := TickAll(rs, w);
    forall a, b | 0 <= a < b < |out|
      ensures out[a].id != out[b].id && (Live(out[a]) && Live(out[b]) ==> !Overlap(out[a], out[b]))
    {
      var i, j := TickOrigins(rs, w, a, b);
      TickForward(rs[i], w);
      TickForward(rs[j], w);
    }
    forall a | 0 <= a < |out| ensures out[a].start < out[a].stop {
      var i := TickOrigin(rs, w, a);
      TickForward(rs[i], w);
    }
  }

  /** Nothing is left to do for the record at time t: it is not due, and not live past its stop. */
  predicate Settled(r: Record, t: int) {
    !Due(r, t) && (Live(r) ==> r.stop >= t)
  }

  /** A tick at time t leaves no pending record that is due by t, and no pending or recording record whose
      stop is before t, whatever is saved, started or lost on the way. */
  lemma TickClears(rs: seq<Record>, w: World)
    requires Forward(w)
    ensures forall a | 0 <= a < |TickAll(rs, w)| :: Settled(TickAll(rs, w)[a], w.t)
  {
    forall a | 0 <= a < |TickAll(rs, w)| ensures Settled(TickAll(rs, w)[a], w.t) {
      var i := TickOrigin(rs, w, a);
      assert w.t <= w.now1(rs[i].id) <= w.now2(rs[i].id);
    }
  }

  lemma ScheduleKeeps(rs: seq<Record>, n: Record, q: Request)
    requires Inv(rs) && n.status == Pending && forall i | 0 <= i < |rs| :: rs[i].id != n.id
    ensures Inv(ScheduleAll(rs, n, q))
  {
  }

  /** The record is found recording when the active records are looked at: it was so before, or was due and has been
      marked, and nobody reported that its start failed. */
  ghost predicate FoundRecording(r: Record, w: World) {
    || r.status == Recording
    || (r.status == Pending && r.start <= w.t && !(w.marks(r.id) && w.starts(r.id) == StartFailed))
  }

  /** What becomes of every record in a tick at time t. */
  lemma TickOutcome(r: Record, w: World)
    ensures TickRecord(r, w) == None <==> r.status == Pending && r.stop < w.t
    ensures r.status in {Completed, Failed} ==> TickRecord(r, w) == Some(r)
    ensures r.status == Pending && r.start > w.t && r.stop >= w.t ==> TickRecord(r, w) == Some(r)
    ensures TickRecord(r, w).Some? && r.status in {Pending, Recording} && (r.status == Pending ==> r.start <= w.t) ==>
              var after := TickRecord(r, w).value;
              && SameSlot(r, after)
              && (after.status == Completed <==> FoundRecording(r, w) && r.stop < w.now1(r.id))
              && (after.status == Recording <==>
                    FoundRecording(r, w) && r.stop >= w.now1(r.id)
                    && (w.sessions(r.id)
                        || (r.stop >= w.now2(r.id) && !(w.remarks(r.id) && w.restarts(r.id) == StartFailed))))
              && after.status != Pending
  {
  }

  /** Which requests are refused, and why. */
  lemma ScheduleErrors(rs: seq<Record>, n: Record, q: Request)
    ensures var err := ScheduleResult(rs, n, q);
            var inTime := q.channelExists && q.channelEnabled && n.start >= q.now - q.cutoff;
            var taken := exists i :: 0 <= i < |rs| && rs[i].status in {Pending, Recording} && Overlap(rs[i], n);
            && (err == Some(NoChannel) <==> !q.channelExists)
            && (err == Some(ChannelDisabled) <==> q.channelExists && !q.channelEnabled)
            && (err == Some(TooLate) <==> q.channelExists && q.channelEnabled && n.start < q.now - q.cutoff)
            && (err == Some(BadInterval) <==> inTime && n.start >= n.stop)
            && (err == Some(Conflict) <==> inTime && n.start < n.stop && taken)
            && (err == Some(CreateFailed) <==> inTime && n.start < n.stop && !taken && !q.created)
            && (err == None <==> inTime && n.start < n.stop && !taken && q.created)
  {
    forall i | 0 <= i < |rs| ensures Conflicts(rs[i], n) <==> rs[i].status in {Pending, Recording} && Overlap(rs[i], n) {
    }
  }

  /** What becomes of a new record: it is pending, unless it was saved and starts within the lead time; then it is
      recording, or failed if the recording service was asked and could not start it. */
  lemma Scheduled(rs: seq<Record>, n: Record, q: Request)
    requires n.status == Pending && ScheduleResult(rs, n, q) in {None, Some(CreateFailed)}
    ensures var after := ScheduleAll(rs, n, q);
            && |after| == |rs| + 1 && after[..|rs|] == rs && SameSlot(after[|rs|], n)
            && (after[|rs|].status == Pending <==> !q.created || n.start >= q.later + q.lead)
            && (after[|rs|].status == Failed <==>
                  q.created && n.start < q.later + q.lead && q.marked && q.result == StartFailed)
            && after[|rs|].status != Completed
  {
  }

  predicate HasId(rs: seq<Record>, id: Id) {
    exists i :: 0 <= i < |rs| && rs[i].id == id
  }

  /** A request that fails does not always leave the list alone: the record is stored if and only if the call
      succeeds or its only error is that the list was not saved. */
  lemma StoredIff(rs: seq<Record>, n: Record, q: Request)
    requires !HasId(rs, n.id)
    ensures HasId(ScheduleAll(rs, n, q), n.id) <==> ScheduleResult(rs, n, q) in {None, Some(CreateFailed)}
  {
    if ScheduleCheck(rs, n, q).None? {
      assert ScheduleAll(rs, n, q)[|rs|].id == n.id;
    }
  }

  /** The tick finds a pending record due and not over, and the recording service starts it. */
  predicate StartsInTime(r: Record, w: World) {
    && r.start <= w.t <= r.stop && w.now1(r.id) <= r.stop
    && w.marks(r.id) && w.starts(r.id) == Started && w.sessions(r.id)
  }

  /** After a request that failed because the list was not saved, the record is pending like any other: the same request
      under a new ID is refused as a conflict, and a tick that finds the record due and can start it does so. */
  lemma FailedCreateIsLive(rs: seq<Record>, n: Record, q: Request, again: Id, w: World)
    requires n.status == Pending && ScheduleResult(rs, n, q) == Some(CreateFailed)
    ensures var after := ScheduleAll(rs, n, q);
            && after == rs + [n]
            && ScheduleResult(after, n.(id := again), q) == Some(Conflict)
            && (StartsInTime(n, w) ==> n.(status := Recording) in TickAll(after, w))
  {
    var after := rs + [n];
    assert after[|rs|] == n && Conflicts(after[|rs|], n.(id := again));
    if StartsInTime(n, w) {
      var a := TickImage(after, w, |rs|);
    }
  }

  const LOST := Record(0, "user", "channel", 100, 200, Pending)

  /** It does happen. */
  lemma CreateFails()
    ensures ScheduleResult([], LOST, Request(true, true, 0, 0, 300, 30, false, true, Started)) == Some(CreateFailed)
    ensures ScheduleAll([], LOST, Request(true, true, 0, 0, 300, 30, false, true, Started)) == [LOST]
  {
  }

  lemma DropKeeps(rs: seq<Record>, k: nat)
    requires Inv(rs) && k < |rs|
    ensures Inv(rs[..k] + rs[k + 1..])
  {
    var out := rs[..k] + rs[k + 1..];
    forall i | 0 <= i < |out| ensures out[i] == rs[if i < k then i else i + 1] {}
  }

  lemma DropMembers(rs: seq<Record>, k: nat)
    requires k < |rs|
    ensures forall r :: r in rs[..k] + rs[k + 1..] ==> r in rs
    ensures forall r :: r in rs && r.id != rs[k].id ==> r in rs[..k] + rs[k + 1..]
  {
    assert rs == rs[..k] + [rs[k]] + rs[k + 1..];
  }

  lemma RemoveKeeps(rs: seq<Record>, id: Id)
    requires Inv(rs)
    ensures Inv(RemoveId(rs, id))
    ensures forall r :: r in RemoveId(rs, id) ==> r in rs
    ensures forall r :: r in rs && r.id != id ==> r in RemoveId(rs, id)
  {
    if k: nat :| k < |rs| && rs[k].id == id {
      RemoveIdAt(rs, k);
      DropKeeps(rs, k);
      DropMembers(rs, k);
    } else {
      RemoveAbsent(rs, id);
    }
  }

  lemma {:induction false} RemoveAbsent(rs: seq<Record>, id: Id)
    requires forall i | 0 <= i < |rs| :: rs[i].id != id
    ensures RemoveId(rs, id) == rs
  {
    if rs != [] {
      RemoveAbsent(rs[1..], id);
    }
  }

  /** One operation of the service; new records get an ID that was never used. */
  datatype Op =
    | ScheduleOp(n: Record, q: Request)
    | DeleteOp(id: Id, user: string, isAdmin: bool)
    | TickOp(w: World)

  datatype State = State(records: seq<Record>, used: set<Id>)

  ghost predicate Enabled(s: State, op: Op) {
    && (op.ScheduleOp? ==> op.n.status == Pending && op.n.id !in s.used)
    && (op.TickOp? ==> Forward(op.w))
  }

  ghost function Next(s: State, op: Op): State {
    match op
    case ScheduleOp(n, q) => State(ScheduleAll(s.records, n, q), s.used + {n.id})
    case DeleteOp(id, user, isAdmin) => s.(records := DeleteAll(s.records, id, user, isAdmin))
    case TickOp(w) => s.(records := TickAll(s.records, w))
  }

  ghost predicate StateInv(s: State) {
    Inv(s.records) && forall i | 0 <= i < |s.records| :: s.records[i].id in s.used
  }

  lemma OpKeeps(s: State, op: Op)
    requires StateInv(s) && Enabled(s, op)
    ensures StateInv(Next(s, op))
  {
    match op
    case ScheduleOp(n, q) => ScheduleKeeps(s.records, n, q);
    case DeleteOp(id, user, isAdmin) => RemoveKeeps(s.records, id);
    case TickOp(w) =>
      TickKeeps(s.records, w);
      forall a | 0 <= a < |TickAll(s.records, w)| ensures TickAll(s.records, w)[a].id in s.used {
        var i := TickOrigin(s.records, w, a);
        TickForward(s.records[i], w);
      }
  }

  ghost predicate IsRun(s: State, ops: seq<Op>)
    decreases |ops|
  {
    ops == [] || (Enabled(s, ops[0]) && IsRun(Next(s, ops[0]), ops[1..]))
  }

  ghost function RunFrom(s: State, ops: seq<Op>): State
    decreases |ops|
  {
    if ops == [] then s else RunFrom(Next(s, ops[0]), ops[1..])
  }

  /** A finished record: gone for good, or there unchanged. */
  ghost predicate StaysFinished(r: Record, s: State) {
    r.id in s.used && forall i | 0 <= i < |s.records| && s.records[i].id == r.id :: s.records[i] == r
  }

  lemma FinishedStep(r: Record, s: State, op: Op)
    requires StateInv(s) && Enabled(s, op) && !Live(r) && StaysFinished(r, s)
    ensures StaysFinished(r, Next(s, op))
  {
    match op
    case ScheduleOp(n, q) =>
    case DeleteOp(id, user, isAdmin) =>
      RemoveKeeps(s.records, id);
      var left := DeleteAll(s.records, id, user, isAdmin);
      forall a | 0 <= a < |left| && left[a].id == r.id ensures left[a] == r {
        assert left[a] in s.records;
      }
    case TickOp(w) =>
      forall a | 0 <= a < |TickAll(s.records, w)| && TickAll(s.records, w)[a].id == r.id
        ensures TickAll(s.records, w)[a] == r
      {
        var i := TickOrigin(s.records, w, a);
        TickForward(s.records[i], w);
      }
  }

  /** Over every run of Schedule, Delete and Tick: no two live records of one user and channel overlap, and a record
      that is completed or failed at some point never has another status after that. */
  lemma {:induction false} EveryRun(s: State, ops: seq<Op>, r: Record)
    requires StateInv(s) && IsRun(s, ops)
    ensures StateInv(RunFrom(s, ops))
    ensures !Live(r) && r in s.records ==> StaysFinished(r, RunFrom(s, ops))
    decreases |ops|
  {
    if !Live(r) && r in s.records {
      assert StaysFinished(r, s);
    }
    RunKeeps(s, ops, r);
  }

  lemma {:induction false} RunKeeps(s: State, ops: seq<Op>, r: Record)
    requires StateInv(s) && IsRun(s, ops)
    ensures StateInv(RunFrom(s, ops))
    ensures !Live(r) && StaysFinished(r, s) ==> StaysFinished(r, RunFrom(s, ops))
    decreases |ops|
  {
    if ops != [] {
      OpKeeps(s, ops[0]);
      if !Live(r) && StaysFinished(r, s) {
        FinishedStep(r, s, ops[0]);
      }
      RunKeeps(Next(s, ops[0]), ops[1..], r);
    }
  }
}
