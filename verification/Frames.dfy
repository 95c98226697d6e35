/** Ownership of video frames in the transcode pipelines: decoder, deinterlacer and scaler hand out
    frames that must be freed exactly once and not used afterwards, whichever stage fails. */
module Frames {
  import opened Basics

  type Frame = nat

  /** The stages that read frames. */
  datatype Stage = Deinterlacer | Scaler | Encoder

  /** What happens to frames, in order: a stage hands one out, a stage reads one, one is freed. */
  datatype Event = Make(frame: Frame) | Use(frame: Frame, stage: Stage) | Free(frame: Frame)

  type Log = seq<Event>

  // ----- What a good log is -----

  /** The frames handed out and not yet freed. */
  function Live(log: Log): set<Frame> {
    if log == [] then {}
    else
      Apply(Live(log[..|log| - 1]), log[|log| - 1])
  }

  function Apply(live: set<Frame>, e: Event): set<Frame> {
    match e
    case Make(f) => live + {f}
    case Use(_, _) => live
    case Free(f) => live - {f}
  }

  function Made(log: Log): set<Frame> {
    if log == [] then {}
    else
      var before, e := Made(log[..|log| - 1]), log[|log| - 1];
      if e.Make? then before + {e.frame} else before
  }

  /** Frames are handed out once, and used and freed only while they are live. */
  ghost predicate Legal(log: Log) {
    log == [] ||
    var before, e := log[..|log| - 1], log[|log| - 1];
    Legal(before) && (if e.Make? then e.frame !in Made(before) else e.frame in Live(before))
  }

  ghost predicate Clean(log: Log) {
    Legal(log) && Live(log) == {}
  }

  function CountFree(log: Log, f: Frame): nat {
    if log == [] then 0 else CountFree(log[..|log| - 1], f) + (if log[|log| - 1] == Free(f) then 1 else 0)
  }

  /** How often a stage was given a frame. */
  function CountUse(log: Log, stage: Stage): nat {
    if log == [] then 0
    else CountUse(log[..|log| - 1], stage) + (if log[|log| - 1].Use? && log[|log| - 1].stage == stage then 1 else 0)
  }

  lemma {:induction false} LiveIsMade(log: Log)
    ensures Live(log) <= Made(log)
  {
    if log != [] {
      LiveIsMade(log[..|log| - 1]);
    }
  }

  /** In a legal log a frame was freed once if it was handed out and is not live, and never otherwise. */
  lemma {:induction false} FreeCount(log: Log, f: Frame)
    requires Legal(log)
    ensures CountFree(log, f) == if f in Made(log) && f !in Live(log) then 1 else 0
  {
    if log != [] {
      FreeCount(log[..|log| - 1], f);
      LiveIsMade(log[..|log| - 1]);
    }
  }

  /** Nothing happens to a frame after it was freed. */
  lemma {:induction false} NothingAfterFree(log: Log, i: nat, j: nat)
    requires Legal(log) && i < j < |log| && log[i].Free?
    ensures log[j].frame != log[i].frame
    decreases |log|
  {
    var before := log[..|log| - 1];
    if j < |log| - 1 {
      NothingAfterFree(before, i, j);
    } else {
      FreedStaysFreed(before, i);
    }
  }

  lemma {:induction false} FreedStaysFreed(log: Log, i: nat)
    requires Legal(log) && i < |log| && log[i].Free?
    ensures log[i].frame in Made(log) && log[i].frame !in Live(log)
    decreases |log|
  {
    var before := log[..|log| - 1];
    if i < |log| - 1 {
      FreedStaysFreed(before, i);
    } else {
      LiveIsMade(before);
    }
  }

  /** What a clean log means: every frame that was handed out is freed exactly once, and after that neither used nor freed. */
  lemma CleanMeans(log: Log)
    requires Clean(log)
    ensures forall f :: CountFree(log, f) == if f in Made(log) then 1 else 0
    ensures forall i, j | 0 <= i < j < |log| && log[i].Free? :: log[j].frame != log[i].frame
  {
    forall f ensures CountFree(log, f) == if f in Made(log) then 1 else 0 {
      FreeCount(log, f);
    }
    forall i, j | 0 <= i < j < |log| && log[i].Free? ensures log[j].frame != log[i].frame {
      NothingAfterFree(log, i, j);
    }
  }

  lemma OneMore(log: Log, e: Event)
    ensures Live(log + [e]) == Apply(Live(log), e)
    ensures Made(log + [e]) == if e.Make? then Made(log) + {e.frame} else Made(log)
    ensures forall stage :: CountUse(log + [e], stage) == CountUse(log, stage) + (if e.Use? && e.stage == stage then 1 else 0)
    ensures forall x :: x in log + [e] <==> x in log || x == e
    ensures Legal(log) && (if e.Make? then e.frame !in Made(log) else e.frame in Live(log)) ==> Legal(log + [e])
  {
    assert (log + [e])[..|log|] == log;
  }

  // ----- The pipeline -----

  /** Which optional stages a pipeline has. */
  datatype Pipeline = Pipeline(stopped: bool, deinterlaces: bool, scales: bool)

  datatype Deinterlaced = Failed | Held | Produced
  datatype Encoded = EncodeFailed | Packets(count: nat)

  /** What the foreign stages answer in one call: `frames` decoded frames and perhaps an error, and for the
      i-th of them the results of the later stages; muxes(i, k) tells whether packet k could be written. */
  datatype World = World(drop: bool, packetOk: bool, frames: nat, decodeOk: bool, deint: nat -> Deinterlaced,
                         scaleOk: nat -> bool, encode: nat -> Encoded, muxes: (nat, nat) -> bool)

  datatype Error = PacketError | DecodeError | DeinterlaceError | ScaleError | EncodeError | MuxError

  // ----- What a call comes to -----

  /** The stage that gets the decoded frames. */
  function FirstStage(p: Pipeline): Stage {
    if p.deinterlaces then Deinterlacer else if p.scales then Scaler else Encoder
  }

  /** Frame i gets as far as this stage. */
  ghost predicate Called(p: Pipeline, w: World, i: nat, stage: Stage) {
    match stage
    case Deinterlacer => p.deinterlaces
    case Scaler => p.scales && (p.deinterlaces ==> w.deint(i) == Produced)
    case Encoder => (p.deinterlaces ==> w.deint(i) == Produced) && (p.scales ==> w.scaleOk(i))
  }

  /** Of the first m frames, how many get as far as this stage. */
  ghost function Calls(p: Pipeline, w: World, m: nat, stage: Stage): nat {
    if m == 0 then 0 else Calls(p, w, m - 1, stage) + (if Called(p, w, m - 1, stage) then 1 else 0)
  }

  /** Frame i ends the call with this error. */
  ghost predicate FailsWith(p: Pipeline, w: World, i: nat, e: Error) {
    match e
    case DeinterlaceError => Called(p, w, i, Deinterlacer) && w.deint(i) == Failed
    case ScaleError => Called(p, w, i, Scaler) && !w.scaleOk(i)
    case EncodeError => Called(p, w, i, Encoder) && w.encode(i) == EncodeFailed
    case MuxError => Called(p, w, i, Encoder) && w.encode(i).Packets? && exists k :: 0 <= k < w.encode(i).count && !w.muxes(i, k)
    case _ => false
  }

  ghost predicate Fails(p: Pipeline, w: World, i: nat) {
    exists e :: FailsWith(p, w, i, e)
  }

  /** What a call returns after frames 0..begun were begun: nothing, or the first error. */
  ghost predicate Returns(p: Pipeline, w: World, err: Option<Error>, begun: nat) {
    if p.stopped || w.drop then err == None && begun == 0
    else if !w.packetOk then err == Some(PacketError) && begun == 0
    else if !w.decodeOk then err == Some(DecodeError) && begun == 0
    else if err == None then begun == w.frames && forall i: nat | i < w.frames :: !Fails(p, w, i)
    else 0 < begun <= w.frames && FailsWith(p, w, begun - 1, err.value) && forall i: nat | i < begun - 1 :: !Fails(p, w, i)
  }

  /** The frames i..n, which the decoder handed out. */
  function Rest(i: nat, n: nat): (r: set<Frame>)
    ensures forall f :: f in r <==> i <= f < n
    decreases n - i
  {
    if i >= n then {} else {i} + Rest(i + 1, n)
  }

  /** How often each of the three stages was given a frame, and which of the first n frames they were given. */
  ghost predicate Uses(log: Log, d: nat, s: nat, e: nat, first: Stage, begun: nat, n: nat) {
    && CountUse(log, Deinterlacer) == d && CountUse(log, Scaler) == s && CountUse(log, Encoder) == e
    && forall f: nat, stage | f < n :: Use(f, stage) in log <==> f < begun && stage == first
  }

  /** No frame was given to a stage in between. */
  ghost predicate SameUses(log: Log, log': Log) {
    (forall stage :: CountUse(log', stage) == CountUse(log, stage)) && (forall f, stage :: Use(f, stage) in log' <==> Use(f, stage) in log)
  }

  /** Frame f was given to one stage in between. */
  ghost predicate OneUse(log: Log, log': Log, f: Frame, stage: Stage) {
    && (forall s :: CountUse(log', s) == CountUse(log, s) + if s == stage then 1 else 0)
    && (forall g, s :: Use(g, s) in log' <==> Use(g, s) in log || (g == f && s == stage))
  }

  lemma UsesKept(log: Log, log': Log, d: nat, s: nat, e: nat, first: Stage, begun: nat, n: nat)
    requires Uses(log, d, s, e, first, begun, n) && SameUses(log, log')
    ensures Uses(log', d, s, e, first, begun, n)
  {
  }

  lemma OneMoreUse(log: Log, log': Log, f: Frame, stage: Stage, d: nat, s: nat, e: nat, first: Stage, begun: nat, n: nat)
    requires Uses(log, d, s, e, first, begun, n) && OneUse(log, log', f, stage)
    requires n <= f || (f == begun && stage == first)
    ensures Uses(log', d + if stage == Deinterlacer then 1 else 0, s + if stage == Scaler then 1 else 0,
                 e + if stage == Encoder then 1 else 0, first, if f < n then begun + 1 else begun, n)
  {
  }

  /** Everything but the given decoded frames is freed, and new frames start at `next`. */
  ghost predicate Owned(log: Log, live: set<Frame>, next: nat) {
    Legal(log) && Live(log) == live && forall f | f in Made(log) :: f < next
  }

  method FreeFrom(log: Log, i: nat, n: nat, ghost next: nat) returns (log': Log)
    requires i <= n && Owned(log, Rest(i, n), next)
    ensures Owned(log', {}, next) && Made(log') == Made(log) && SameUses(log, log')
  {
    log' := log;
    for k := i to n
      invariant Owned(log', Rest(k, n), next) && Made(log') == Made(log) && SameUses(log, log')
    {
      OneMore(log', Free(k));
      log' := log' + [Free(k)];
    }
  }

  method MakeFrames(n: nat) returns (log: Log)
    ensures Owned(log, Rest(0, n), n) && SameUses([], log)
  {
    log := [];
    for k := 0 to n
      invariant Owned(log, Rest(0, k), k) && SameUses([], log)
    {
      OneMore(log, Make(k));
      log := log + [Make(k)];
    }
  }

  /** A stage that reads frame f, after which f is freed; on success it has handed out a new frame. */
  method Replace(log: Log, f: Frame, stage: Stage, hands: bool, ghost rest: set<Frame>, next: nat) returns (log': Log, next': nat)
    requires Owned(log, rest + {f}, next) && f !in rest && f < next
    requires forall r | r in rest :: r < next
    ensures Owned(log', if hands then rest + {next} else rest, next') && Made(log) <= Made(log')
    ensures next' == if hands then next + 1 else next
    ensures OneUse(log, log', f, stage)
  {
    OneMore(log, Use(f, stage));
    log' := log + [Use(f, stage)];
    next' := next;
    if hands {
      assert next !in Made(log');
      OneMore(log', Make(next));
      log' := log' + [Make(next)];
      next' := next + 1;
    }
    OneMore(log', Free(f));
    log' := log' + [Free(f)];
  }

  /** The stages were given exactly the frames that got as far as they do, of the first m. */
  ghost predicate UsesSoFar(p: Pipeline, w: World, log: Log, m: nat, n: nat) {
    Uses(log, Calls(p, w, m, Deinterlacer), Calls(p, w, m, Scaler), Calls(p, w, m, Encoder), FirstStage(p), m, n)
  }

  /** The part of the loop body that is left once deinterlacer and scaler are through: `frame` goes to the encoder. */
  method EncodeFrame(p: Pipeline, w: World, i: nat, n: nat, frame: Frame, log: Log, next: nat)
    returns (err: Option<Error>, log': Log, next': nat)
    requires i < n <= next && Owned(log, Rest(i + 1, n) + {frame}, next) && frame < next && frame !in Rest(i + 1, n)
    ensures next <= next' && Made(log) <= Made(log')
    ensures err.None? ==> Owned(log', Rest(i + 1, n), next')
    ensures err.Some? ==> Owned(log', {}, next')
    ensures match err
            case None => w.encode(i).Packets? && forall k | 0 <= k < w.encode(i).count :: w.muxes(i, k)
            case Some(e) =>
              || (e == EncodeError && w.encode(i).EncodeFailed?)
              || (e == MuxError && w.encode(i).Packets? && exists k :: 0 <= k < w.encode(i).count && !w.muxes(i, k))
    ensures OneUse(log, log', frame, Encoder)
  {
    ghost var rest := Rest(i + 1, n);
    log', next' := Replace(log, frame, Encoder, false, rest, next);
    if w.encode(i).EncodeFailed? {
      log' := FreeFrom(log', i + 1, n, next');
      return Some(EncodeError), log', next';
    }
    for k := 0 to w.encode(i).count
      invariant forall j | 0 <= j < k :: w.muxes(i, j)
    {
      if !w.muxes(i, k) {
        log' := FreeFrom(log', i + 1, n, next');
        return Some(MuxError), log', next';
      }
    }
    return None, log', next';
  }

  /** What is left of the loop body behind the deinterlacer: `frame` goes to the scaler, if there is one, and on. */
  method ScaleFrame(p: Pipeline, w: World, i: nat, n: nat, frame: Frame, log: Log, next: nat,
                    ghost d: nat, ghost s: nat, ghost e: nat, ghost begun: nat)
    returns (err: Option<Error>, log': Log, next': nat)
    requires i < n <= next && Owned(log, Rest(i + 1, n) + {frame}, next) && frame < next && frame !in Rest(i + 1, n)
    requires Uses(log, d, s, e, FirstStage(p), begun, n)
    requires if p.deinterlaces then n <= frame && begun == i + 1 else frame == begun == i
    ensures next <= next' && Made(log) <= Made(log')
    ensures err.None? ==> Owned(log', Rest(i + 1, n), next')
    ensures err.Some? ==> Owned(log', {}, next')
    ensures err == Some(ScaleError) <==> p.scales && !w.scaleOk(i)
    ensures err == Some(EncodeError) <==> (p.scales ==> w.scaleOk(i)) && w.encode(i).EncodeFailed?
    ensures err == Some(MuxError) <==>
              (p.scales ==> w.scaleOk(i)) && w.encode(i).Packets? && exists k :: 0 <= k < w.encode(i).count && !w.muxes(i, k)
    ensures err in {None, Some(ScaleError), Some(EncodeError), Some(MuxError)}
    ensures Uses(log', d, s + if p.scales then 1 else 0, e + if p.scales ==> w.scaleOk(i) then 1 else 0, FirstStage(p), i + 1, n)
  {
    ghost var first := FirstStage(p);
    if !p.scales {
      err, log', next' := EncodeFrame(p, w, i, n, frame, log, next);
      OneMoreUse(log, log', frame, Encoder, d, s, e, first, begun, n);
      return;
    }
    log', next' := Replace(log, frame, Scaler, w.scaleOk(i), Rest(i + 1, n), next);
    OneMoreUse(log, log', frame, Scaler, d, s, e, first, begun, n);
    ghost var scaled := log';
    if !w.scaleOk(i) {
      log' := FreeFrom(log', i + 1, n, next');
      UsesKept(scaled, log', d, s + 1, e, first, i + 1, n);
      return Some(ScaleError), log', next';
    }
    err, log', next' := EncodeFrame(p, w, i, n, next' - 1, log', next');
    OneMoreUse(scaled, log', next, Encoder, d, s + 1, e, first, i + 1, n);
  }

  /** One decoded frame on its way through deinterlacer, scaler and encoder; i is its number, frames i + 1..n wait. */
  method PushFrame(p: Pipeline, w: World, i: nat, n: nat, log: Log, next: nat)
    returns (err: Option<Error>, log': Log, next': nat)
    requires i < n <= next && Owned(log, Rest(i, n), next) && UsesSoFar(p, w, log, i, n)
    ensures next <= next' && Made(log) <= Made(log')
    ensures err.None? ==> Owned(log', Rest(i + 1, n), next')
    ensures err.Some? ==> Owned(log', {}, next')
    ensures if err.Some? then FailsWith(p, w, i, err.value) else !Fails(p, w, i)
    ensures UsesSoFar(p, w, log', i + 1, n)
  {
    ghost var rest, first := Rest(i + 1, n), FirstStage(p);
    ghost var d, s, e := Calls(p, w, i, Deinterlacer), Calls(p, w, i, Scaler), Calls(p, w, i, Encoder);
    assert Rest(i, n) == rest + {i};
    if !p.deinterlaces {
      err, log', next' := ScaleFrame(p, w, i, n, i, log, next, d, s, e, i);
      return;
    }
    log', next' := Replace(log, i, Deinterlacer, w.deint(i).Produced?, rest, next);
    OneMoreUse(log, log', i, Deinterlacer, d, s, e, first, i, n);
    if w.deint(i).Failed? {
      ghost var before := log';
      log' := FreeFrom(log', i + 1, n, next');
      UsesKept(before, log', d + 1, s, e, first, i + 1, n);
      return Some(DeinterlaceError), log', next';
    }
    if w.deint(i).Held? {
      return None, log', next';
    }
    err, log', next' := ScaleFrame(p, w, i, n, next' - 1, log', next', d + 1, s, e, i + 1);
  }

  /** PushVideo of the Full, MSE and HLS pipelines: for any number of decoded frames and an error at any stage of
      any of them, every frame is freed exactly once and never used after that. */
  method PushVideo(p: Pipeline, w: World) returns (err: Option<Error>, log: Log, ghost begun: nat)
    ensures Clean(log)
    ensures Returns(p, w, err, begun) && UsesSoFar(p, w, log, begun, w.frames)
    ensures p.stopped || w.drop || !w.packetOk ==> log == []
    ensures !p.stopped && !w.drop && w.packetOk ==> Rest(0, w.frames) <= Made(log)
  {
    if p.stopped || w.drop {
      return None, [], 0;
    }
    if !w.packetOk {
      return Some(PacketError), [], 0;
    }
    var n := w.frames;
    log := MakeFrames(n);
    LiveIsMade(log);
    var next := n;
    if !w.decodeOk {
      log := FreeFrom(log, 0, n, next);
      return Some(DecodeError), log, 0;
    }
    for i := 0 to n
      invariant n <= next && Owned(log, Rest(i, n), next) && Rest(0, n) <= Made(log)
      invariant UsesSoFar(p, w, log, i, n)
      invariant forall j: nat | j < i :: !Fails(p, w, j)
    {
      err, log, next := PushFrame(p, w, i, n, log, next);
      if err.Some? {
        return err, log, i + 1;
      }
    }
    return None, log, n;
  }
}
