/** The stream probe message: what MarshalProbe writes, what a reader of the
    message sees, and what appending enrichment fields does to it. */
module ProbeMessage {
  import opened Basics
  import opened Wire

  /** A Go string: at most 2^48 bytes, the size of the address space Go allocates from. */
  type GoString = s: seq<byte> | |s| <= 0x1_0000_0000_0000
  type Int64 = x: int | Fits64(x)

  // ----- What is marshalled -----

  datatype VideoStream = VideoStream(codec: GoString, width: int, height: int, interlaced: bool,
                                     bitDepth: int, framerateN: int, framerateD: int, bitrateKbps: int)
  datatype AudioTrack = AudioTrack(index: int, codec: GoString, channels: int, sampleRate: int,
                                   language: GoString, isAD: bool, bitrateKbps: int)
  datatype SubtitleTrack = SubtitleTrack(index: int, codec: GoString, language: GoString)
  datatype StreamInfo = StreamInfo(container: GoString, durationMs: Int64, isLive: bool, video: Option<VideoStream>,
                                   audioTracks: seq<AudioTrack>, subTracks: seq<SubtitleTrack>)

  // ----- What a reader sees (field numbers and types of the generated message types) -----

  datatype AudioMsg = AudioMsg(index: int, codec: seq<byte>, channels: int, sampleRate: int,
                               language: seq<byte>, isAd: bool, bitrateKbps: int)
  datatype SubtitleMsg = SubtitleMsg(index: int, codec: seq<byte>, language: seq<byte>)
  datatype Probe = Probe(
    videoCodec: seq<byte>, videoCodecString: seq<byte>, videoWidth: int, videoHeight: int, videoInterlaced: bool,
    audioSourceCodec: seq<byte>, audioSourceChannels: int, audioSourceSampleRate: int,
    audioOutputCodec: seq<byte>, audioOutputChannels: int, audioOutputSampleRate: int,
    videoBitDepth: int, videoFramerateNum: int, videoFramerateDen: int, videoBitrateKbps: int,
    container: seq<byte>, durationMs: int, isLive: bool, selectedAudioIndex: int,
    audioTracks: seq<AudioMsg>, subtitleTracks: seq<SubtitleMsg>, audioSourceBitrateKbps: int)

  function AudioOf(rs: seq<Record>): AudioMsg {
    AudioMsg(Int32At(rs, 1), BytesAt(rs, 2), Int32At(rs, 3), Int32At(rs, 4),
             BytesAt(rs, 5), BoolAt(rs, 6), Int32At(rs, 7))
  }

  function SubtitleOf(rs: seq<Record>): SubtitleMsg {
    SubtitleMsg(Int32At(rs, 1), BytesAt(rs, 2), BytesAt(rs, 3))
  }

  function DecodeAudios(ds: seq<seq<byte>>): Option<seq<AudioMsg>> {
    if ds == [] then Some([])
    else match (DecodeAudios(ds[..|ds| - 1]), Parse(ds[|ds| - 1]))
      case (Some(ms), Some(rs)) => Some(ms + [AudioOf(rs)])
      case _ => None
  }

  function DecodeSubtitles(ds: seq<seq<byte>>): Option<seq<SubtitleMsg>> {
    if ds == [] then Some([])
    else match (DecodeSubtitles(ds[..|ds| - 1]), Parse(ds[|ds| - 1]))
      case (Some(ms), Some(rs)) => Some(ms + [SubtitleOf(rs)])
      case _ => None
  }

  function ProbeOf(rs: seq<Record>): Option<Probe> {
    match (DecodeAudios(All(rs, 20)), DecodeSubtitles(All(rs, 21)))
    case (Some(audios), Some(subs)) =>
      Some(Probe(
             BytesAt(rs, 1), BytesAt(rs, 2), Int32At(rs, 3), Int32At(rs, 4), BoolAt(rs, 5),
             BytesAt(rs, 6), Int32At(rs, 7), Int32At(rs, 8),
             BytesAt(rs, 9), Int32At(rs, 10), Int32At(rs, 11),
             Int32At(rs, 12), Int32At(rs, 13), Int32At(rs, 14), Int32At(rs, 15),
             BytesAt(rs, 16), Int64At(rs, 17), BoolAt(rs, 18), Int32At(rs, 19),
             audios, subs, Int32At(rs, 22)))
    case _ => None
  }

  function DecodeProbe(s: seq<byte>): Option<Probe> {
    match Parse(s) case None => None case Some(rs) => ProbeOf(rs)
  }

  // ----- What the reader is promised -----

  const NO_VIDEO := VideoStream([], 0, 0, false, 0, 0, 0, 0)
  const NO_AUDIO := AudioTrack(0, [], 0, 0, [], false, 0)

  function VideoOr(info: StreamInfo): VideoStream {
    if info.video.Some? then info.video.value else NO_VIDEO
  }

  function FirstWithIndex(ts: seq<AudioTrack>, idx: int): (r: Option<AudioTrack>)
    ensures r.None? <==> forall i | 0 <= i < |ts| :: ts[i].index != idx
    ensures r.Some? ==> exists i :: 0 <= i < |ts| && ts[i] == r.value && r.value.index == idx
                                    && forall j | 0 <= j < i :: ts[j].index != idx
  {
    if ts == [] then None
    else if ts[0].index == idx then Some(ts[0])
    else
      var r := FirstWithIndex(ts[1..], idx);
      assert forall i | 1 <= i < |ts| :: ts[i] == ts[1..][i - 1];
      assert r.Some? ==> exists i :: 0 <= i < |ts[1..]| && ts[1..][i] == r.value && ts[i + 1] == r.value
                                    && forall j | 0 <= j < i :: ts[1..][j].index != idx;
      r
  }

  /** The track with the selected index, otherwise the first one, otherwise none. */
  function SelectedAudio(info: StreamInfo, idx: int): AudioTrack {
    var found := FirstWithIndex(info.audioTracks, idx);
    if found.Some? then found.value
    else if info.audioTracks != [] then info.audioTracks[0]
    else NO_AUDIO
  }

  /** A track as it survives the conversion to 32-bit numbers. */
  function AudioSeen(a: AudioTrack): AudioMsg {
    AudioMsg(ToInt32(a.index), a.codec, ToInt32(a.channels), ToInt32(a.sampleRate),
             a.language, a.isAD, ToInt32(a.bitrateKbps))
  }

  function SubtitleSeen(t: SubtitleTrack): SubtitleMsg {
    SubtitleMsg(ToInt32(t.index), t.codec, t.language)
  }

  const DEFAULT_AUDIO := AudioMsg(0, [], 0, 0, [], false, 0)
  const DEFAULT_SUBTITLE := SubtitleMsg(0, [], [])

  /** The tracks in order, without those in which every field has its default value. */
  function AudiosSeen(ts: seq<AudioTrack>): seq<AudioMsg> {
    if ts == [] then []
    else
      var front, last := AudiosSeen(ts[..|ts| - 1]), AudioSeen(ts[|ts| - 1]);
      if last == DEFAULT_AUDIO then front else front + [last]
  }

  function SubtitlesSeen(ts: seq<SubtitleTrack>): seq<SubtitleMsg> {
    if ts == [] then []
    else
      var front, last := SubtitlesSeen(ts[..|ts| - 1]), SubtitleSeen(ts[|ts| - 1]);
      if last == DEFAULT_SUBTITLE then front else front + [last]
  }

  function ProbeSeen(info: StreamInfo, idx: int): Probe {
    var v, a := VideoOr(info), SelectedAudio(info, idx);
    Probe(
      v.codec, [], ToInt32(v.width), ToInt32(v.height), v.interlaced,
      a.codec, ToInt32(a.channels), ToInt32(a.sampleRate),
      [], 0, 0,
      ToInt32(v.bitDepth), ToInt32(v.framerateN), ToInt32(v.framerateD), ToInt32(v.bitrateKbps),
      info.container, info.durationMs, info.isLive, ToInt32(idx),
      AudiosSeen(info.audioTracks), SubtitlesSeen(info.subTracks), ToInt32(a.bitrateKbps))
  }

  /** Field by field, what a reader of a marshalled probe is promised. */
  lemma SeenFields(info: StreamInfo, idx: int)
    ensures var p, a := ProbeSeen(info, idx), SelectedAudio(info, idx);
            var v := if info.video.Some? then info.video.value else VideoStream([], 0, 0, false, 0, 0, 0, 0);
            && p.videoCodec == v.codec && p.videoWidth == ToInt32(v.width) && p.videoHeight == ToInt32(v.height)
            && p.videoInterlaced == v.interlaced && p.videoBitDepth == ToInt32(v.bitDepth)
            && p.videoFramerateNum == ToInt32(v.framerateN) && p.videoFramerateDen == ToInt32(v.framerateD)
            && p.videoBitrateKbps == ToInt32(v.bitrateKbps)
            && p.audioSourceCodec == a.codec && p.audioSourceChannels == ToInt32(a.channels)
            && p.audioSourceSampleRate == ToInt32(a.sampleRate) && p.audioSourceBitrateKbps == ToInt32(a.bitrateKbps)
            && p.container == info.container && p.durationMs == info.durationMs && p.isLive == info.isLive
            && p.selectedAudioIndex == ToInt32(idx)
            && p.videoCodecString == [] && p.audioOutputCodec == []
            && p.audioOutputChannels == 0 && p.audioOutputSampleRate == 0
  {
  }

  /** The selected audio track is the first one with the index, otherwise the first one of all. */
  lemma SelectedIs(info: StreamInfo, idx: int)
    ensures var ts, a := info.audioTracks, SelectedAudio(info, idx);
            && (ts == [] ==> a == AudioTrack(0, [], 0, 0, [], false, 0))
            && (ts != [] && (forall i | 0 <= i < |ts| :: ts[i].index != idx) ==> a == ts[0])
            && (forall i | 0 <= i < |ts| && ts[i].index == idx && (forall j | 0 <= j < i :: ts[j].index != idx) :: a == ts[i])
  {
  }

  /** Field by field, what a reader is promised of a track. */
  lemma TrackFields(a: AudioTrack, t: SubtitleTrack)
    ensures var m := AudioSeen(a);
            && m.index == ToInt32(a.index) && m.codec == a.codec && m.channels == ToInt32(a.channels)
            && m.sampleRate == ToInt32(a.sampleRate) && m.language == a.language && m.isAd == a.isAD
            && m.bitrateKbps == ToInt32(a.bitrateKbps)
    ensures var m := SubtitleSeen(t); m.index == ToInt32(t.index) && m.codec == t.codec && m.language == t.language
  {
  }

  /** What is kept are the elements other than d, in order; `at` says where they were. */
  ghost predicate KeptInOrder<T>(kept: seq<T>, all: seq<T>, d: T, at: seq<nat>) {
    && |at| == |kept|
    && (forall i | 0 <= i < |at| :: at[i] < |all| && kept[i] == all[at[i]])
    && (forall i, j | 0 <= i < j < |at| :: at[i] < at[j])
    && (forall k: nat | k < |all| :: k in at <==> all[k] != d)
  }

  lemma KeptOneMore<T>(kept: seq<T>, all: seq<T>, d: T, at: seq<nat>, x: T)
    requires KeptInOrder(kept, all, d, at)
    ensures x == d ==> KeptInOrder(kept, all + [x], d, at)
    ensures x != d ==> KeptInOrder(kept + [x], all + [x], d, at + [|all|])
  {
    var at' := if x == d then at else at + [|all|];
    forall k: nat | k <= |all| ensures k in at' <==> (all + [x])[k] != d {
      assert k in at' <==> k in at || (x != d && k == |all|);
    }
  }

  function AudioMsgs(ts: seq<AudioTrack>): seq<AudioMsg> {
    seq(|ts|, i requires 0 <= i < |ts| => AudioSeen(ts[i]))
  }

  function SubtitleMsgs(ts: seq<SubtitleTrack>): seq<SubtitleMsg> {
    seq(|ts|, i requires 0 <= i < |ts| => SubtitleSeen(ts[i]))
  }

  /** The tracks that are listed are exactly those with a field that is not default, in order. */
  lemma {:induction false} AudiosInOrder(ts: seq<AudioTrack>) returns (at: seq<nat>)
    ensures KeptInOrder(AudiosSeen(ts), AudioMsgs(ts), AudioMsg(0, [], 0, 0, [], false, 0), at)
  {
    if ts == [] {
      at := [];
    } else {
      var front, last := ts[..|ts| - 1], AudioSeen(ts[|ts| - 1]);
      at := AudiosInOrder(front);
      KeptOneMore(AudiosSeen(front), AudioMsgs(front), DEFAULT_AUDIO, at, last);
      assert AudioMsgs(ts) == AudioMsgs(front) + [last];
      if last != DEFAULT_AUDIO {
        at := at + [|front|];
      }
    }
  }

  lemma {:induction false} SubtitlesInOrder(ts: seq<SubtitleTrack>) returns (at: seq<nat>)
    ensures KeptInOrder(SubtitlesSeen(ts), SubtitleMsgs(ts), SubtitleMsg(0, [], []), at)
  {
    if ts == [] {
      at := [];
    } else {
      var front, last := ts[..|ts| - 1], SubtitleSeen(ts[|ts| - 1]);
      at := SubtitlesInOrder(front);
      KeptOneMore(SubtitlesSeen(front), SubtitleMsgs(front), DEFAULT_SUBTITLE, at, last);
      assert SubtitleMsgs(ts) == SubtitleMsgs(front) + [last];
      if last != DEFAULT_SUBTITLE {
        at := at + [|front|];
      }
    }
  }

  // ----- The fields in the order they are written -----

  function AudioFields(m: AudioMsg): seq<Field> {
    [IntField(1, m.index), BytesField(2, m.codec), IntField(3, m.channels), IntField(4, m.sampleRate),
     BytesField(5, m.language), BoolField(6, m.isAd), IntField(7, m.bitrateKbps)]
  }

  function SubtitleFields(m: SubtitleMsg): seq<Field> {
    [IntField(1, m.index), BytesField(2, m.codec), BytesField(3, m.language)]
  }

  function HeadFields(p: Probe): seq<Field> {
    [BytesField(1, p.videoCodec), IntField(3, p.videoWidth), IntField(4, p.videoHeight),
     BoolField(5, p.videoInterlaced), BytesField(6, p.audioSourceCodec), IntField(7, p.audioSourceChannels),
     IntField(8, p.audioSourceSampleRate), IntField(12, p.videoBitDepth),
     IntField(13, p.videoFramerateNum), IntField(14, p.videoFramerateDen),
     IntField(15, p.videoBitrateKbps), BytesField(16, p.container),
     IntField(17, p.durationMs), BoolField(18, p.isLive), IntField(19, p.selectedAudioIndex)]
  }

  function AudioList(ts: seq<AudioTrack>): seq<Field> {
    if ts == [] then []
    else AudioList(ts[..|ts| - 1]) + [BytesField(20, Encode(AudioFields(AudioSeen(ts[|ts| - 1]))))]
  }

  function SubtitleList(ts: seq<SubtitleTrack>): seq<Field> {
    if ts == [] then []
    else SubtitleList(ts[..|ts| - 1]) + [BytesField(21, Encode(SubtitleFields(SubtitleSeen(ts[|ts| - 1]))))]
  }

  function TailField(p: Probe): Field {
    IntField(22, p.audioSourceBitrateKbps)
  }

  function ProbeFields(info: StreamInfo, idx: int): seq<Field> {
    var p := ProbeSeen(info, idx);
    HeadFields(p) + AudioList(info.audioTracks) + SubtitleList(info.subTracks) + [TailField(p)]
  }

  predicate FitsGo(s: seq<byte>) { |s| <= 0x1_0000_0000_0000 }

  /** Messages whose numbers and strings fit their declared types. */
  predicate AudioFits(m: AudioMsg) {
    Fits32(m.index) && FitsGo(m.codec) && Fits32(m.channels) && Fits32(m.sampleRate)
    && FitsGo(m.language) && Fits32(m.bitrateKbps)
  }

  predicate SubtitleFits(m: SubtitleMsg) {
    Fits32(m.index) && FitsGo(m.codec) && FitsGo(m.language)
  }

  predicate HeadFits(p: Probe) {
    && FitsGo(p.videoCodec) && Fits32(p.videoWidth) && Fits32(p.videoHeight) && FitsGo(p.audioSourceCodec)
    && Fits32(p.audioSourceChannels) && Fits32(p.audioSourceSampleRate) && Fits32(p.videoBitDepth)
    && Fits32(p.videoFramerateNum) && Fits32(p.videoFramerateDen) && Fits32(p.videoBitrateKbps)
    && FitsGo(p.container) && Fits64(p.durationMs)
    && Fits32(p.selectedAudioIndex) && Fits32(p.audioSourceBitrateKbps)
  }

  // ----- Small facts about encodings -----

  ghost predicate Increasing(fs: seq<Field>) {
    forall i, j | 0 <= i < j < |fs| :: fs[i].num < fs[j].num
  }

  /** A reader of rs finds exactly f under f's number. */
  ghost predicate Carries(rs: seq<Record>, f: Field) {
    match f
    case IntField(n, v) => Int64At(rs, n) == v && (Fits32(v) ==> Int32At(rs, n) == v)
    case BoolField(n, b) => BoolAt(rs, n) == b
    case BytesField(n, d) => BytesAt(rs, n) == d
  }

  lemma OneCarried(f: Field)
    requires Writable(f)
    ensures Carries(FieldRecords(f), f)
  {
    if f.IntField? {
      ReadBackInt(f.v);
      assert f.v != 0 ==> FieldRecords(f)[0] == VarintRec(f.num, f.v % TWO64);
    }
  }

  lemma SameLastCarries(rs: seq<Record>, rs': seq<Record>, f: Field)
    requires Last(rs, f.num, 0) == Last(rs', f.num, 0) && Last(rs, f.num, 2) == Last(rs', f.num, 2)
    requires Carries(rs', f)
    ensures Carries(rs, f)
  {
  }

  /** A reader finds every written field under its number, whatever the other fields are. */
  lemma AllCarried(fs: seq<Field>)
    requires Increasing(fs) && forall i | 0 <= i < |fs| :: Writable(fs[i])
    ensures forall i | 0 <= i < |fs| :: Carries(Records(fs), fs[i])
  {
    forall i | 0 <= i < |fs| ensures Carries(Records(fs), fs[i]) {
      LastOfOnly(fs, i, 0);
      LastOfOnly(fs, i, 2);
      OneCarried(fs[i]);
      SameLastCarries(Records(fs), FieldRecords(fs[i]), fs[i]);
    }
  }

  lemma {:induction false} EncodeAllDefault(fs: seq<Field>)
    requires forall i | 0 <= i < |fs| :: FieldBytes(fs[i]) == []
    ensures Encode(fs) == []
  {
    if fs != [] {
      EncodeAllDefault(fs[..|fs| - 1]);
    }
  }

  const FIELD_CAP: nat := 0x1_0000_0000_0014

  lemma FieldLength(f: Field)
    requires Writable(f) && (f.BytesField? ==> |f.data| <= 0x1_0000_0000_0000)
    ensures |FieldBytes(f)| <= FIELD_CAP
  {
    TenDigits();
    VarintLength(f.num * 8 + (if f.BytesField? then 2 else 0), 10);
    match f
    case IntField(_, v) => VarintLength(v % TWO64, 10);
    case BoolField(_, _) =>
    case BytesField(_, d) => VarintLength(|d|, 10);
  }

  lemma {:induction false} EncodeLength(fs: seq<Field>)
    requires forall i | 0 <= i < |fs| :: Writable(fs[i]) && (fs[i].BytesField? ==> |fs[i].data| <= 0x1_0000_0000_0000)
    ensures |Encode(fs)| <= |fs| * FIELD_CAP
  {
    if fs != [] {
      EncodeLength(fs[..|fs| - 1]);
      FieldLength(fs[|fs| - 1]);
    }
  }

  // ----- Tracks -----

  lemma AudioWritable(m: AudioMsg)
    requires AudioFits(m)
    ensures Increasing(AudioFields(m)) && forall i | 0 <= i < 7 :: Writable(AudioFields(m)[i])
    ensures |Encode(AudioFields(m))| < TWO64
  {
    EncodeLength(AudioFields(m));
  }

  lemma SubtitleWritable(m: SubtitleMsg)
    requires SubtitleFits(m)
    ensures Increasing(SubtitleFields(m)) && forall i | 0 <= i < 3 :: Writable(SubtitleFields(m)[i])
    ensures |Encode(SubtitleFields(m))| < TWO64
  {
    EncodeLength(SubtitleFields(m));
  }

  lemma AudioFromCarried(rs: seq<Record>, m: AudioMsg)
    requires AudioFits(m) && forall i | 0 <= i < 7 :: Carries(rs, AudioFields(m)[i])
    ensures AudioOf(rs) == m
  {
    var fs := AudioFields(m);
    assert Carries(rs, fs[0]) && Carries(rs, fs[1]) && Carries(rs, fs[2]) && Carries(rs, fs[3]);
    assert Carries(rs, fs[4]) && Carries(rs, fs[5]) && Carries(rs, fs[6]);
  }

  lemma SubtitleFromCarried(rs: seq<Record>, m: SubtitleMsg)
    requires SubtitleFits(m) && forall i | 0 <= i < 3 :: Carries(rs, SubtitleFields(m)[i])
    ensures SubtitleOf(rs) == m
  {
    var fs := SubtitleFields(m);
    assert Carries(rs, fs[0]) && Carries(rs, fs[1]) && Carries(rs, fs[2]);
  }

  /** A track message decodes to itself, and its encoding is empty exactly if all of it is default. */
  lemma AudioRoundTrip(m: AudioMsg) returns (rs: seq<Record>)
    requires AudioFits(m)
    ensures Parse(Encode(AudioFields(m))) == Some(rs) && AudioOf(rs) == m
  {
    AudioWritable(m);
    ParseEncode(AudioFields(m));
    AllCarried(AudioFields(m));
    rs := Records(AudioFields(m));
    AudioFromCarried(rs, m);
  }

  lemma AudioEmpty(m: AudioMsg)
    requires AudioFits(m)
    ensures Encode(AudioFields(m)) == [] <==> m == DEFAULT_AUDIO
  {
    DefaultAudioIsEmpty();
    var rs := AudioRoundTrip(m);
    if Encode(AudioFields(m)) == [] {
      assert rs == [];
    }
  }

  lemma DefaultAudioIsEmpty()
    ensures Encode(AudioFields(DEFAULT_AUDIO)) == []
  {
    EncodeAllDefault(AudioFields(DEFAULT_AUDIO));
  }

  lemma SubtitleRoundTrip(m: SubtitleMsg) returns (rs: seq<Record>)
    requires SubtitleFits(m)
    ensures Parse(Encode(SubtitleFields(m))) == Some(rs) && SubtitleOf(rs) == m
  {
    SubtitleWritable(m);
    ParseEncode(SubtitleFields(m));
    AllCarried(SubtitleFields(m));
    rs := Records(SubtitleFields(m));
    SubtitleFromCarried(rs, m);
  }

  lemma SubtitleEmpty(m: SubtitleMsg)
    requires SubtitleFits(m)
    ensures Encode(SubtitleFields(m)) == [] <==> m == DEFAULT_SUBTITLE
  {
    var rs := SubtitleRoundTrip(m);
    var fs := SubtitleFields(m);
    if m == DEFAULT_SUBTITLE {
      EncodeAllDefault(fs);
    }
    if Encode(fs) == [] {
      assert rs == [];
    }
  }

  lemma {:induction false} AudioListWritable(ts: seq<AudioTrack>)
    ensures forall i | 0 <= i < |AudioList(ts)| :: AudioList(ts)[i].num == 20 && Writable(AudioList(ts)[i])
  {
    if ts != [] {
      AudioListWritable(ts[..|ts| - 1]);
      AudioWritable(AudioSeen(ts[|ts| - 1]));
    }
  }

  lemma {:induction false} SubtitleListWritable(ts: seq<SubtitleTrack>)
    ensures forall i | 0 <= i < |SubtitleList(ts)| :: SubtitleList(ts)[i].num == 21 && Writable(SubtitleList(ts)[i])
  {
    if ts != [] {
      SubtitleListWritable(ts[..|ts| - 1]);
      SubtitleWritable(SubtitleSeen(ts[|ts| - 1]));
    }
  }

  /** A repeated field gains one value, unless what is appended is empty. */
  lemma AllOneMore(fs: seq<Field>, num: nat, data: seq<byte>)
    ensures All(Records(fs + [BytesField(num, data)]), num) ==
            if data == [] then All(Records(fs), num) else All(Records(fs), num) + [data]
  {
    var f := BytesField(num, data);
    RecordsAppend(fs, [f]);
    RecordsOfOne(f);
    AllAppend(Records(fs), FieldRecords(f), num);
    if data != [] {
      AllOfOne(f);
    }
  }

  lemma DecodeAudiosOneMore(ds: seq<seq<byte>>, d: seq<byte>, ms: seq<AudioMsg>, rs: seq<Record>)
    requires DecodeAudios(ds) == Some(ms) && Parse(d) == Some(rs)
    ensures DecodeAudios(ds + [d]) == Some(ms + [AudioOf(rs)])
  {
    assert (ds + [d])[..|ds|] == ds;
  }

  lemma DecodeSubtitlesOneMore(ds: seq<seq<byte>>, d: seq<byte>, ms: seq<SubtitleMsg>, rs: seq<Record>)
    requires DecodeSubtitles(ds) == Some(ms) && Parse(d) == Some(rs)
    ensures DecodeSubtitles(ds + [d]) == Some(ms + [SubtitleOf(rs)])
  {
    assert (ds + [d])[..|ds|] == ds;
  }

  lemma {:induction false} AudioListSeen(ts: seq<AudioTrack>)
    ensures DecodeAudios(All(Records(AudioList(ts)), 20)) == Some(AudiosSeen(ts))
  {
    if ts != [] {
      var front, last := ts[..|ts| - 1], AudioSeen(ts[|ts| - 1]);
      AudioListSeen(front);
      AudioEmpty(last);
      AllOneMore(AudioList(front), 20, Encode(AudioFields(last)));
      var rs := AudioRoundTrip(last);
      DecodeAudiosOneMore(All(Records(AudioList(front)), 20), Encode(AudioFields(last)), AudiosSeen(front), rs);
    }
  }

  lemma {:induction false} SubtitleListSeen(ts: seq<SubtitleTrack>)
    ensures DecodeSubtitles(All(Records(SubtitleList(ts)), 21)) == Some(SubtitlesSeen(ts))
  {
    if ts != [] {
      var front, last := ts[..|ts| - 1], SubtitleSeen(ts[|ts| - 1]);
      SubtitleListSeen(front);
      SubtitleEmpty(last);
      AllOneMore(SubtitleList(front), 21, Encode(SubtitleFields(last)));
      var rs := SubtitleRoundTrip(last);
      DecodeSubtitlesOneMore(All(Records(SubtitleList(front)), 21), Encode(SubtitleFields(last)), SubtitlesSeen(front), rs);
    }
  }

  lemma RecordsOfOne(f: Field)
    ensures Records([f]) == FieldRecords(f)
  {
    assert [f][..0] == [];
    assert Records([f]) == [] + FieldRecords(f);
  }

  lemma AllOfOne(f: Field)
    requires f.BytesField? && f.data != []
    ensures All(FieldRecords(f), f.num) == [f.data]
  {
    var rs := FieldRecords(f);
    assert rs[..0] == [];
    assert All(rs, f.num) == [] + [f.data];
  }

  // ----- The whole message -----

  lemma {:induction false} IncreasingFrom(fs: seq<Field>)
    requires forall i | 0 <= i < |fs| - 1 :: fs[i].num < fs[i + 1].num
    ensures Increasing(fs)
  {
    if |fs| > 1 {
      var front := fs[..|fs| - 1];
      IncreasingFrom(front);
      forall i, j | 0 <= i < j < |fs| ensures fs[i].num < fs[j].num {
        if j < |fs| - 1 {
          assert front[i].num < front[j].num;
        } else if i < |fs| - 2 {
          assert front[i].num < front[|fs| - 2].num;
        }
      }
    }
  }

  lemma HeadFacts(p: Probe)
    requires HeadFits(p)
    ensures Increasing(HeadFields(p))
    ensures forall i | 0 <= i < 15 :: Writable(HeadFields(p)[i]) && HeadFields(p)[i].num < 20
    ensures forall i | 0 <= i < 15 :: HeadFields(p)[i].num !in {2, 9, 10, 11}
  {
    IncreasingFrom(HeadFields(p));
  }

  /** Looking up a number that the later parts of the message do not use looks into its head. */
  lemma LastInHead(h: seq<Field>, a: seq<Field>, s: seq<Field>, t: Field, num: nat, wire: nat)
    requires forall i | 0 <= i < |a| :: a[i].num == 20
    requires forall i | 0 <= i < |s| :: s[i].num == 21
    requires t.num == 22 && num < 20
    ensures Last(Records(h + a + s + [t]), num, wire) == Last(Records(h), num, wire)
  {
    RecordsAppend(h + a + s, [t]);
    RecordsAppend(h + a, s);
    RecordsAppend(h, a);
    LastOfOther([t], num, wire);
    LastOfOther(s, num, wire);
    LastOfOther(a, num, wire);
    LastAppend(Records(h + a + s), Records([t]), num, wire);
    LastAppend(Records(h + a), Records(s), num, wire);
    LastAppend(Records(h), Records(a), num, wire);
  }

  lemma AllInLists(h: seq<Field>, a: seq<Field>, s: seq<Field>, t: Field, num: nat)
    requires forall i | 0 <= i < |h| :: h[i].num != num
    requires t.num != num
    ensures All(Records(h + a + s + [t]), num) == All(Records(a), num) + All(Records(s), num)
  {
    RecordsAppend(h + a + s, [t]);
    RecordsAppend(h + a, s);
    RecordsAppend(h, a);
    AllOfOther([t], num);
    AllOfOther(h, num);
    AllAppend(Records(h + a + s), Records([t]), num);
    AllAppend(Records(h + a), Records(s), num);
    AllAppend(Records(h), Records(a), num);
    assert [] + All(Records(a), num) == All(Records(a), num);
  }

  lemma LastIsTail(h: seq<Field>, a: seq<Field>, s: seq<Field>, t: Field, wire: nat)
    requires forall i | 0 <= i < |h| :: h[i].num < 20
    requires forall i | 0 <= i < |a| :: a[i].num == 20
    requires forall i | 0 <= i < |s| :: s[i].num == 21
    requires t.num == 22
    ensures Last(Records(h + a + s + [t]), 22, wire) == Last(Records([t]), 22, wire)
  {
    var front := h + a + s;
    forall j | 0 <= j < |front| ensures front[j].num != 22 {
      assert front[j] == if j < |h| then h[j] else if j < |h + a| then a[j - |h|] else s[j - |h + a|];
    }
    LastOfLast(front, t, 22, wire);
  }

  lemma LastOfLast(front: seq<Field>, t: Field, num: nat, wire: nat)
    requires forall j | 0 <= j < |front| :: front[j].num != num
    ensures Last(Records(front + [t]), num, wire) == Last(Records([t]), num, wire)
  {
    RecordsAppend(front, [t]);
    LastAppend(Records(front), Records([t]), num, wire);
    LastOfOther(front, num, wire);
  }

  ghost predicate HeadAgrees(rs: seq<Record>, p: Probe) {
    && BytesAt(rs, 1) == p.videoCodec && Int32At(rs, 3) == p.videoWidth && Int32At(rs, 4) == p.videoHeight
    && BoolAt(rs, 5) == p.videoInterlaced && BytesAt(rs, 6) == p.audioSourceCodec
    && Int32At(rs, 7) == p.audioSourceChannels && Int32At(rs, 8) == p.audioSourceSampleRate
    && Int32At(rs, 12) == p.videoBitDepth && Int32At(rs, 13) == p.videoFramerateNum
    && Int32At(rs, 14) == p.videoFramerateDen && Int32At(rs, 15) == p.videoBitrateKbps
    && BytesAt(rs, 16) == p.container && Int64At(rs, 17) == p.durationMs
    && BoolAt(rs, 18) == p.isLive && Int32At(rs, 19) == p.selectedAudioIndex
  }

  lemma HeadFromCarried(rs: seq<Record>, p: Probe)
    requires HeadFits(p) && forall i | 0 <= i < 15 :: Carries(rs, HeadFields(p)[i])
    ensures HeadAgrees(rs, p)
  {
    var fs := HeadFields(p);
    assert Carries(rs, fs[0]) && Carries(rs, fs[1]) && Carries(rs, fs[2]) && Carries(rs, fs[3]);
    assert Carries(rs, fs[4]) && Carries(rs, fs[5]) && Carries(rs, fs[6]) && Carries(rs, fs[7]);
    assert Carries(rs, fs[8]) && Carries(rs, fs[9]) && Carries(rs, fs[10]) && Carries(rs, fs[11]);
    assert Carries(rs, fs[12]) && Carries(rs, fs[13]) && Carries(rs, fs[14]);
  }

  ghost predicate NotEnriched(rs: seq<Record>) {
    BytesAt(rs, 2) == [] && BytesAt(rs, 9) == [] && Int32At(rs, 10) == 0 && Int32At(rs, 11) == 0
  }

  lemma HeadSeen(rs: seq<Record>, h: seq<Field>, p: Probe)
    requires HeadFits(p) && h == HeadFields(p)
    requires forall num: nat, wire: nat | num < 20 :: Last(rs, num, wire) == Last(Records(h), num, wire)
    ensures HeadAgrees(rs, p) && NotEnriched(rs)
  {
    HeadFacts(p);
    AllCarried(h);
    forall i | 0 <= i < 15 ensures Carries(rs, h[i]) {
      SameLastCarries(rs, Records(h), h[i]);
    }
    HeadFromCarried(rs, p);
    LastOfOther(h, 2, 2);
    LastOfOther(h, 9, 2);
    LastOfOther(h, 10, 0);
    LastOfOther(h, 11, 0);
  }

  lemma HeadOfParts(rs: seq<Record>, h: seq<Field>, a: seq<Field>, s: seq<Field>, t: Field, p: Probe)
    requires HeadFits(p) && h == HeadFields(p) && t.num == 22 && rs == Records(h + a + s + [t])
    requires forall i | 0 <= i < |a| :: a[i].num == 20
    requires forall i | 0 <= i < |s| :: s[i].num == 21
    ensures HeadAgrees(rs, p) && NotEnriched(rs)
  {
    forall num: nat, wire: nat | num < 20 ensures Last(rs, num, wire) == Last(Records(h), num, wire) {
      LastInHead(h, a, s, t, num, wire);
    }
    HeadSeen(rs, h, p);
  }

  lemma AssembleProbe(rs: seq<Record>, p: Probe)
    requires HeadAgrees(rs, p) && Int32At(rs, 22) == p.audioSourceBitrateKbps
    requires BytesAt(rs, 2) == p.videoCodecString && BytesAt(rs, 9) == p.audioOutputCodec
    requires Int32At(rs, 10) == p.audioOutputChannels && Int32At(rs, 11) == p.audioOutputSampleRate
    requires DecodeAudios(All(rs, 20)) == Some(p.audioTracks)
    requires DecodeSubtitles(All(rs, 21)) == Some(p.subtitleTracks)
    ensures ProbeOf(rs) == Some(p)
  {
  }

  lemma TailSeen(h: seq<Field>, a: seq<Field>, s: seq<Field>, t: Field)
    requires forall i | 0 <= i < |h| :: h[i].num < 20
    requires forall i | 0 <= i < |a| :: a[i].num == 20
    requires forall i | 0 <= i < |s| :: s[i].num == 21
    requires t.num == 22 && Writable(t)
    ensures Carries(Records(h + a + s + [t]), t)
  {
    LastIsTail(h, a, s, t, 0);
    LastIsTail(h, a, s, t, 2);
    RecordsOfOne(t);
    OneCarried(t);
    SameLastCarries(Records(h + a + s + [t]), FieldRecords(t), t);
  }

  lemma ListsSeen(h: seq<Field>, a: seq<Field>, s: seq<Field>, t: Field)
    requires forall i | 0 <= i < |h| :: h[i].num < 20
    requires forall i | 0 <= i < |a| :: a[i].num == 20
    requires forall i | 0 <= i < |s| :: s[i].num == 21
    requires t.num == 22
    ensures All(Records(h + a + s + [t]), 20) == All(Records(a), 20)
    ensures All(Records(h + a + s + [t]), 21) == All(Records(s), 21)
  {
    AllInLists(h, a, s, t, 20);
    AllOfOther(s, 20);
    AllInLists(h, a, s, t, 21);
    AllOfOther(a, 21);
  }

  /** The head, the two lists and the tail of a message, read back as a whole. */
  lemma ReadParts(h: seq<Field>, a: seq<Field>, s: seq<Field>, t: Field, p: Probe)
    requires HeadAgrees(Records(h + a + s + [t]), p) && NotEnriched(Records(h + a + s + [t]))
    requires t == TailField(p) && Writable(t) && Fits32(p.audioSourceBitrateKbps)
    requires forall i | 0 <= i < |h| :: h[i].num < 20
    requires forall i | 0 <= i < |a| :: a[i].num == 20
    requires forall i | 0 <= i < |s| :: s[i].num == 21
    requires p.videoCodecString == p.audioOutputCodec == [] && p.audioOutputChannels == p.audioOutputSampleRate == 0
    requires DecodeAudios(All(Records(a), 20)) == Some(p.audioTracks)
    requires DecodeSubtitles(All(Records(s), 21)) == Some(p.subtitleTracks)
    ensures ProbeOf(Records(h + a + s + [t])) == Some(p)
  {
    TailSeen(h, a, s, t);
    ListsSeen(h, a, s, t);
    AssembleProbe(Records(h + a + s + [t]), p);
  }

  lemma ParseParts(h: seq<Field>, a: seq<Field>, s: seq<Field>, t: Field)
    requires forall i | 0 <= i < |h| :: Writable(h[i])
    requires forall i | 0 <= i < |a| :: Writable(a[i])
    requires forall i | 0 <= i < |s| :: Writable(s[i])
    requires Writable(t)
    ensures Parse(Encode(h + a + s + [t])) == Some(Records(h + a + s + [t]))
  {
    ParseEncode(h + a + s + [t]);
  }

  lemma SeenFits(info: StreamInfo, idx: int)
    ensures HeadFits(ProbeSeen(info, idx))
  {
  }

  /** Decoding a marshalled probe gives back the video fields, the selected audio track, every
      32- and 64-bit number, and the track lists in order with only all-default tracks missing. */
  lemma ProbeRoundTrip(info: StreamInfo, idx: int)
    ensures DecodeProbe(Encode(ProbeFields(info, idx))) == Some(ProbeSeen(info, idx))
  {
    SeenFits(info, idx);
    AudioListWritable(info.audioTracks);
    SubtitleListWritable(info.subTracks);
    AudioListSeen(info.audioTracks);
    SubtitleListSeen(info.subTracks);
    var p := ProbeSeen(info, idx);
    PartsRoundTrip(AudioList(info.audioTracks), SubtitleList(info.subTracks), p);
  }

  lemma PartsRoundTrip(a: seq<Field>, s: seq<Field>, p: Probe)
    requires HeadFits(p)
    requires forall i | 0 <= i < |a| :: a[i].num == 20 && Writable(a[i])
    requires forall i | 0 <= i < |s| :: s[i].num == 21 && Writable(s[i])
    requires p.videoCodecString == p.audioOutputCodec == [] && p.audioOutputChannels == p.audioOutputSampleRate == 0
    requires DecodeAudios(All(Records(a), 20)) == Some(p.audioTracks)
    requires DecodeSubtitles(All(Records(s), 21)) == Some(p.subtitleTracks)
    ensures DecodeProbe(Encode(HeadFields(p) + a + s + [TailField(p)])) == Some(p)
  {
    HeadFacts(p);
    var h, t := HeadFields(p), TailField(p);
    ParseParts(h, a, s, t);
    HeadOfParts(Records(h + a + s + [t]), h, a, s, t, p);
    ReadParts(h, a, s, t, p);
  }

  // ----- Appending: "Last One Wins" -----

  /** q laid over p: its non-default scalars win, its repeated fields follow. */
  function Merge(p: Probe, q: Probe): Probe {
    Probe(
      OrBytes(q.videoCodec, p.videoCodec), OrBytes(q.videoCodecString, p.videoCodecString),
      OrInt(q.videoWidth, p.videoWidth), OrInt(q.videoHeight, p.videoHeight), q.videoInterlaced || p.videoInterlaced,
      OrBytes(q.audioSourceCodec, p.audioSourceCodec), OrInt(q.audioSourceChannels, p.audioSourceChannels),
      OrInt(q.audioSourceSampleRate, p.audioSourceSampleRate),
      OrBytes(q.audioOutputCodec, p.audioOutputCodec), OrInt(q.audioOutputChannels, p.audioOutputChannels),
      OrInt(q.audioOutputSampleRate, p.audioOutputSampleRate),
      OrInt(q.videoBitDepth, p.videoBitDepth), OrInt(q.videoFramerateNum, p.videoFramerateNum),
      OrInt(q.videoFramerateDen, p.videoFramerateDen), OrInt(q.videoBitrateKbps, p.videoBitrateKbps),
      OrBytes(q.container, p.container), OrInt(q.durationMs, p.durationMs), q.isLive || p.isLive,
      OrInt(q.selectedAudioIndex, p.selectedAudioIndex),
      p.audioTracks + q.audioTracks, p.subtitleTracks + q.subtitleTracks,
      OrInt(q.audioSourceBitrateKbps, p.audioSourceBitrateKbps))
  }

  function OrInt(a: int, b: int): int { if a != 0 then a else b }
  function OrBytes(a: seq<byte>, b: seq<byte>): seq<byte> { if a != [] then a else b }

  ghost predicate IntOK(rs: seq<Record>, n: nat) { Last(rs, n, 0).Some? ==> Int32At(rs, n) != 0 }
  ghost predicate LongOK(rs: seq<Record>, n: nat) { Last(rs, n, 0).Some? ==> Int64At(rs, n) != 0 }
  ghost predicate BoolOK(rs: seq<Record>, n: nat) { Last(rs, n, 0).Some? ==> BoolAt(rs, n) }
  ghost predicate BytesOK(rs: seq<Record>, n: nat) { Last(rs, n, 2).Some? ==> BytesAt(rs, n) != [] }

  /** No scalar field of the message ends on a record that spells out its default value. */
  ghost predicate NoExplicitDefaults(rs: seq<Record>) {
    && (forall n: nat | IsBytesField(n) :: BytesOK(rs, n))
    && (forall n: nat | IsIntField(n) :: IntOK(rs, n))
    && (forall n: nat | IsBoolField(n) :: BoolOK(rs, n))
    && LongOK(rs, 17)
  }

  lemma ScalarOverride(a: seq<Record>, b: seq<Record>, n: nat)
    ensures IntOK(b, n) ==> Int32At(a + b, n) == OrInt(Int32At(b, n), Int32At(a, n))
    ensures LongOK(b, n) ==> Int64At(a + b, n) == OrInt(Int64At(b, n), Int64At(a, n))
    ensures BoolOK(b, n) ==> BoolAt(a + b, n) == (BoolAt(b, n) || BoolAt(a, n))
    ensures BytesOK(b, n) ==> BytesAt(a + b, n) == OrBytes(BytesAt(b, n), BytesAt(a, n))
  {
    LastAppend(a, b, n, 0);
    LastAppend(a, b, n, 2);
  }

  lemma {:induction false} DecodeAudiosAppend(x: seq<seq<byte>>, y: seq<seq<byte>>)
    requires DecodeAudios(x).Some? && DecodeAudios(y).Some?
    ensures DecodeAudios(x + y) == Some(DecodeAudios(x).value + DecodeAudios(y).value)
    decreases |y|
  {
    if y == [] {
      assert x + y == x;
      assert DecodeAudios(x).value + [] == DecodeAudios(x).value;
    } else {
      var front, last := y[..|y| - 1], y[|y| - 1];
      assert x + y == (x + front) + [last];
      DecodeAudiosAppend(x, front);
      DecodeAudiosOneMore(x + front, last, DecodeAudios(x + front).value, Parse(last).value);
      Assoc(DecodeAudios(x).value, DecodeAudios(front).value, [AudioOf(Parse(last).value)]);
    }
  }

  lemma {:induction false} DecodeSubtitlesAppend(x: seq<seq<byte>>, y: seq<seq<byte>>)
    requires DecodeSubtitles(x).Some? && DecodeSubtitles(y).Some?
    ensures DecodeSubtitles(x + y) == Some(DecodeSubtitles(x).value + DecodeSubtitles(y).value)
    decreases |y|
  {
    if y == [] {
      assert x + y == x;
      assert DecodeSubtitles(x).value + [] == DecodeSubtitles(x).value;
    } else {
      var front, last := y[..|y| - 1], y[|y| - 1];
      assert x + y == (x + front) + [last];
      DecodeSubtitlesAppend(x, front);
      DecodeSubtitlesOneMore(x + front, last, DecodeSubtitles(x + front).value, Parse(last).value);
      Assoc(DecodeSubtitles(x).value, DecodeSubtitles(front).value, [SubtitleOf(Parse(last).value)]);
    }
  }

  lemma MergeHead(a: seq<Record>, b: seq<Record>, p: Probe, q: Probe)
    requires HeadAgrees(a, p) && HeadAgrees(b, q) && NoExplicitDefaults(b)
    ensures HeadAgrees(a + b, Merge(p, q))
  {
    assert BytesOK(b, 1) && IntOK(b, 3) && IntOK(b, 4) && BoolOK(b, 5) && BytesOK(b, 6) && IntOK(b, 7) && IntOK(b, 8);
    assert IntOK(b, 12) && IntOK(b, 13) && IntOK(b, 14) && IntOK(b, 15);
    assert BytesOK(b, 16) && LongOK(b, 17) && BoolOK(b, 18) && IntOK(b, 19);
    ScalarOverride(a, b, 1);
    ScalarOverride(a, b, 3);
    ScalarOverride(a, b, 4);
    ScalarOverride(a, b, 5);
    ScalarOverride(a, b, 6);
    ScalarOverride(a, b, 7);
    ScalarOverride(a, b, 8);
    ScalarOverride(a, b, 12);
    ScalarOverride(a, b, 13);
    ScalarOverride(a, b, 14);
    ScalarOverride(a, b, 15);
    ScalarOverride(a, b, 16);
    ScalarOverride(a, b, 17);
    ScalarOverride(a, b, 18);
    ScalarOverride(a, b, 19);
  }

  lemma MergeRest(a: seq<Record>, b: seq<Record>, p: Probe, q: Probe)
    requires ProbeOf(a) == Some(p) && ProbeOf(b) == Some(q) && NoExplicitDefaults(b)
    requires HeadAgrees(a + b, Merge(p, q))
    ensures ProbeOf(a + b) == Some(Merge(p, q))
  {
    assert BytesOK(b, 2) && BytesOK(b, 9) && IntOK(b, 10) && IntOK(b, 11) && IntOK(b, 22);
    ScalarOverride(a, b, 2);
    ScalarOverride(a, b, 9);
    ScalarOverride(a, b, 10);
    ScalarOverride(a, b, 11);
    ScalarOverride(a, b, 22);
    AllAppend(a, b, 20);
    AllAppend(a, b, 21);
    DecodeAudiosAppend(All(a, 20), All(b, 20));
    DecodeSubtitlesAppend(All(a, 21), All(b, 21));
    AssembleProbe(a + b, Merge(p, q));
  }

  /** Appending one well-formed message to another merges their meanings. */
  lemma AppendMerges(a: seq<byte>, b: seq<byte>, p: Probe, q: Probe)
    requires DecodeProbe(a) == Some(p) && DecodeProbe(b) == Some(q)
    requires NoExplicitDefaults(Parse(b).value)
    ensures DecodeProbe(a + b) == Some(Merge(p, q))
  {
    var ra, rb := Parse(a).value, Parse(b).value;
    ParseAppend(a, b);
    MergeHead(ra, rb, p, q);
    MergeRest(ra, rb, p, q);
  }

  // ----- Exactly when appending merges -----

  /** One field under appending: the later value wins over every earlier message, if and only if the appended
      records do not spell out a default. */
  lemma IntOverrideIff(b: seq<Record>, n: nat)
    ensures IntOK(b, n) <==> forall a :: Int32At(a + b, n) == OrInt(Int32At(b, n), Int32At(a, n))
  {
    if IntOK(b, n) {
      forall a ensures Int32At(a + b, n) == OrInt(Int32At(b, n), Int32At(a, n)) {
        ScalarOverride(a, b, n);
      }
    } else {
      var a := [VarintRec(n, 1)];
      LastAppend(a, b, n, 0);
      assert Last(a, n, 0) == Some(a[0]);
      assert Int32At(a + b, n) != OrInt(Int32At(b, n), Int32At(a, n));
    }
  }

  lemma LongOverrideIff(b: seq<Record>, n: nat)
    ensures LongOK(b, n) <==> forall a :: Int64At(a + b, n) == OrInt(Int64At(b, n), Int64At(a, n))
  {
    if LongOK(b, n) {
      forall a ensures Int64At(a + b, n) == OrInt(Int64At(b, n), Int64At(a, n)) {
        ScalarOverride(a, b, n);
      }
    } else {
      var a := [VarintRec(n, 1)];
      LastAppend(a, b, n, 0);
      assert Last(a, n, 0) == Some(a[0]);
      assert Int64At(a + b, n) != OrInt(Int64At(b, n), Int64At(a, n));
    }
  }

  lemma BoolOverrideIff(b: seq<Record>, n: nat)
    ensures BoolOK(b, n) <==> forall a :: BoolAt(a + b, n) == (BoolAt(b, n) || BoolAt(a, n))
  {
    if BoolOK(b, n) {
      forall a ensures BoolAt(a + b, n) == (BoolAt(b, n) || BoolAt(a, n)) {
        ScalarOverride(a, b, n);
      }
    } else {
      var a := [VarintRec(n, 1)];
      LastAppend(a, b, n, 0);
      assert Last(a, n, 0) == Some(a[0]);
      assert BoolAt(a + b, n) != (BoolAt(b, n) || BoolAt(a, n));
    }
  }

  lemma BytesOverrideIff(b: seq<Record>, n: nat)
    ensures BytesOK(b, n) <==> forall a :: BytesAt(a + b, n) == OrBytes(BytesAt(b, n), BytesAt(a, n))
  {
    if BytesOK(b, n) {
      forall a ensures BytesAt(a + b, n) == OrBytes(BytesAt(b, n), BytesAt(a, n)) {
        ScalarOverride(a, b, n);
      }
    } else {
      var a := [BytesRec(n, [0])];
      LastAppend(a, b, n, 2);
      assert Last(a, n, 2) == Some(a[0]);
      assert BytesAt(a + b, n) != OrBytes(BytesAt(b, n), BytesAt(a, n));
    }
  }

  /** The scalar fields of a probe by number and type. */
  function IntOf(p: Probe, n: nat): int {
    if n == 3 then p.videoWidth else if n == 4 then p.videoHeight
    else if n == 7 then p.audioSourceChannels else if n == 8 then p.audioSourceSampleRate
    else if n == 10 then p.audioOutputChannels else if n == 11 then p.audioOutputSampleRate
    else if n == 12 then p.videoBitDepth else if n == 13 then p.videoFramerateNum
    else if n == 14 then p.videoFramerateDen else if n == 15 then p.videoBitrateKbps
    else if n == 19 then p.selectedAudioIndex else if n == 22 then p.audioSourceBitrateKbps else 0
  }

  function BytesOf(p: Probe, n: nat): seq<byte> {
    if n == 1 then p.videoCodec else if n == 2 then p.videoCodecString else if n == 6 then p.audioSourceCodec
    else if n == 9 then p.audioOutputCodec else if n == 16 then p.container else []
  }

  function BoolOf(p: Probe, n: nat): bool {
    if n == 5 then p.videoInterlaced else if n == 18 then p.isLive else false
  }

  predicate IsIntField(n: nat) { n in {3, 4, 7, 8, 10, 11, 12, 13, 14, 15, 19, 22} }
  predicate IsBytesField(n: nat) { n in {1, 2, 6, 9, 16} }
  predicate IsBoolField(n: nat) { n in {5, 18} }

  lemma FieldsOf(rs: seq<Record>, p: Probe, n: nat)
    requires ProbeOf(rs) == Some(p)
    ensures IsIntField(n) ==> IntOf(p, n) == Int32At(rs, n)
    ensures IsBytesField(n) ==> BytesOf(p, n) == BytesAt(rs, n)
    ensures IsBoolField(n) ==> BoolOf(p, n) == BoolAt(rs, n)
    ensures p.durationMs == Int64At(rs, 17)
  {
  }

  lemma MergedInts(p: Probe, q: Probe, n: nat)
    ensures IntOf(Merge(p, q), n) == OrInt(IntOf(q, n), IntOf(p, n))
  {
  }

  lemma MergedOthers(p: Probe, q: Probe, n: nat)
    ensures BytesOf(Merge(p, q), n) == OrBytes(BytesOf(q, n), BytesOf(p, n))
    ensures BoolOf(Merge(p, q), n) == (BoolOf(q, n) || BoolOf(p, n))
  {
  }

  /** A message of a single record. */
  lemma LoneRecord(rec: Record)
    requires rec.field != 20 && rec.field != 21
    ensures ProbeOf([rec]).Some?
    ensures forall n, wire :: Last([rec], n, wire) == if Hits(rec, n, wire) then Some(rec) else None
  {
    NotRepeated(rec, 20);
    NotRepeated(rec, 21);
    assert [rec][..0] == [];
  }

  lemma NotRepeated(rec: Record, n: nat)
    requires rec.field != n
    ensures All([rec], n) == []
  {
    assert [rec][..0] == [];
  }

  /** The message b overrides every message that it is appended to. */
  ghost predicate AlwaysMerges(b: seq<Record>, q: Probe) {
    forall a: seq<Record> | ProbeOf(a).Some? :: ProbeOf(a + b) == Some(Merge(ProbeOf(a).value, q))
  }

  /** A default that is spelled out hides an earlier value, which the merge would keep. */
  lemma NumberHidden(b: seq<Record>, q: Probe, n: nat)
    requires ProbeOf(b) == Some(q) && AlwaysMerges(b, q)
    ensures IsIntField(n) ==> IntOK(b, n)
    ensures IsBoolField(n) ==> BoolOK(b, n)
    ensures n == 17 ==> LongOK(b, n)
  {
    if IsIntField(n) || IsBoolField(n) || n == 17 {
      var rec := VarintRec(n, 1);
      LoneRecord(rec);
      var p := ProbeOf([rec]).value;
      assert ProbeOf([rec] + b) == Some(Merge(p, q));
      LastAppend([rec], b, n, 0);
      FieldsOf([rec], p, n);
      FieldsOf(b, q, n);
      FieldsOf([rec] + b, Merge(p, q), n);
      MergedInts(p, q, n);
      MergedOthers(p, q, n);
    }
  }

  lemma BytesHidden(b: seq<Record>, q: Probe, n: nat)
    requires ProbeOf(b) == Some(q) && AlwaysMerges(b, q) && IsBytesField(n)
    ensures BytesOK(b, n)
  {
    var rec := BytesRec(n, [0]);
    LoneRecord(rec);
    var p := ProbeOf([rec]).value;
    assert ProbeOf([rec] + b) == Some(Merge(p, q));
    LastAppend([rec], b, n, 2);
    FieldsOf([rec], p, n);
    FieldsOf(b, q, n);
    FieldsOf([rec] + b, Merge(p, q), n);
    MergedOthers(p, q, n);
  }

  /** Appending a message merges it into every earlier one if and only if none of its scalar fields ends on a record
      that spells out the default. */
  lemma MergesIff(b: seq<Record>, q: Probe)
    requires ProbeOf(b) == Some(q)
    ensures AlwaysMerges(b, q) <==> NoExplicitDefaults(b)
  {
    if NoExplicitDefaults(b) {
      forall a: seq<Record> | ProbeOf(a).Some? ensures ProbeOf(a + b) == Some(Merge(ProbeOf(a).value, q)) {
        MergeHead(a, b, ProbeOf(a).value, q);
        MergeRest(a, b, ProbeOf(a).value, q);
      }
    } else if AlwaysMerges(b, q) {
      forall n: nat
        ensures (IsIntField(n) ==> IntOK(b, n)) && (IsBoolField(n) ==> BoolOK(b, n)) && (n == 17 ==> LongOK(b, n))
        ensures IsBytesField(n) ==> BytesOK(b, n)
      {
        NumberHidden(b, q, n);
        if IsBytesField(n) {
          BytesHidden(b, q, n);
        }
      }
    }
  }

  lemma LongIsNoDefault(v: nat)
    requires 0 < v < TWO64
    ensures ToInt64(v) != 0
  {
  }

  lemma WrittenBytesOK(fs: seq<Field>, n: nat)
    requires forall i | 0 <= i < |fs| :: Writable(fs[i])
    ensures BytesOK(Records(fs), n)
  {
    LastIsWritten(fs, n, 2);
  }

  lemma WrittenNumbersOK(fs: seq<Field>, n: nat)
    requires forall i | 0 <= i < |fs| :: Writable(fs[i])
    ensures BoolOK(Records(fs), n) && LongOK(Records(fs), n)
    ensures (forall i | 0 <= i < |fs| && fs[i].IntField? && fs[i].num == n :: Fits32(fs[i].v)) ==> IntOK(Records(fs), n)
  {
    LastIsWritten(fs, n, 0);
    var l := Last(Records(fs), n, 0);
    if l.Some? {
      LongIsNoDefault(l.value.value);
    }
  }

  /** The writers never spell out a default, so what they write can always be appended. */
  lemma WrittenHasNoDefaults(fs: seq<Field>, rs: seq<Record>)
    requires rs == Records(fs) && forall i | 0 <= i < |fs| :: Writable(fs[i])
    requires forall i | 0 <= i < |fs| && fs[i].IntField? && fs[i].num != 17 :: Fits32(fs[i].v)
    ensures NoExplicitDefaults(rs)
  {
    forall n: nat ensures BytesOK(rs, n) && BoolOK(rs, n) && LongOK(rs, n) && (n != 17 ==> IntOK(rs, n)) {
      WrittenBytesOK(fs, n);
      WrittenNumbersOK(fs, n);
    }
  }

  // ----- Enrichment -----

  datatype Enrichment = Enrichment(codecString: GoString, audioCodec: GoString, channels: int, sampleRate: int)

  function EnrichFields(e: Enrichment): seq<Field> {
    [BytesField(2, e.codecString), BytesField(9, e.audioCodec),
     IntField(10, ToInt32(e.channels)), IntField(11, ToInt32(e.sampleRate))]
  }

  const EMPTY_PROBE := Probe([], [], 0, 0, false, [], 0, 0, [], 0, 0, 0, 0, 0, 0, [], 0, false, 0, [], [], 0)

  function EnrichSeen(e: Enrichment): Probe {
    EMPTY_PROBE.(videoCodecString := e.codecString, audioOutputCodec := e.audioCodec,
    audioOutputChannels := ToInt32(e.channels), audioOutputSampleRate := ToInt32(e.sampleRate))
  }

  /** A probe after one enrichment: empty and zero values leave what was there. */
  function Enriched(p: Probe, e: Enrichment): Probe {
    p.(videoCodecString := OrBytes(e.codecString, p.videoCodecString),
    audioOutputCodec := OrBytes(e.audioCodec, p.audioOutputCodec),
    audioOutputChannels := OrInt(ToInt32(e.channels), p.audioOutputChannels),
    audioOutputSampleRate := OrInt(ToInt32(e.sampleRate), p.audioOutputSampleRate))
  }

  lemma EnrichWritable(e: Enrichment)
    ensures forall i | 0 <= i < 4 :: Writable(EnrichFields(e)[i]) && EnrichFields(e)[i].num in {2, 9, 10, 11}
    ensures forall i | 0 <= i < 4 && EnrichFields(e)[i].IntField? :: Fits32(EnrichFields(e)[i].v)
    ensures Increasing(EnrichFields(e))
  {
  }

  lemma EnrichFromCarried(rs: seq<Record>, e: Enrichment)
    requires forall i | 0 <= i < 4 :: Carries(rs, EnrichFields(e)[i])
    requires forall n: nat | n !in {2, 9, 10, 11} :: Last(rs, n, 0) == None && Last(rs, n, 2) == None
    requires All(rs, 20) == [] && All(rs, 21) == []
    ensures ProbeOf(rs) == Some(EnrichSeen(e))
  {
    var fs := EnrichFields(e);
    assert Carries(rs, fs[0]) && Carries(rs, fs[1]) && Carries(rs, fs[2]) && Carries(rs, fs[3]);
    assert HeadAgrees(rs, EnrichSeen(e));
    AssembleProbe(rs, EnrichSeen(e));
  }

  lemma EnrichRoundTrip(e: Enrichment)
    ensures Parse(Encode(EnrichFields(e))).Some? && NoExplicitDefaults(Parse(Encode(EnrichFields(e))).value)
    ensures DecodeProbe(Encode(EnrichFields(e))) == Some(EnrichSeen(e))
  {
    EnrichWritable(e);
    var fs := EnrichFields(e);
    ParseEncode(fs);
    AllCarried(fs);
    WrittenHasNoDefaults(fs, Records(fs));
    forall n: nat | n !in {2, 9, 10, 11} ensures Last(Records(fs), n, 0) == None && Last(Records(fs), n, 2) == None {
      LastOfOther(fs, n, 0);
      LastOfOther(fs, n, 2);
    }
    AllOfOther(fs, 20);
    AllOfOther(fs, 21);
    EnrichFromCarried(Records(fs), e);
  }

  /** Appending enrichment fields to any well-formed probe changes the four enriched fields and nothing else. */
  lemma EnrichCorrect(a: seq<byte>, p: Probe, e: Enrichment)
    requires DecodeProbe(a) == Some(p)
    ensures DecodeProbe(a + Encode(EnrichFields(e))) == Some(Enriched(p, e))
  {
    EnrichRoundTrip(e);
    AppendMerges(a, Encode(EnrichFields(e)), p, EnrichSeen(e));
    assert p.audioTracks + [] == p.audioTracks && p.subtitleTracks + [] == p.subtitleTracks;
    assert Merge(p, EnrichSeen(e)) == Enriched(p, e);
  }

  function EnrichAll(a: seq<byte>, es: seq<Enrichment>): seq<byte> {
    if es == [] then a else EnrichAll(a, es[..|es| - 1]) + Encode(EnrichFields(es[|es| - 1]))
  }

  /** The last non-empty (non-zero) value, or what was there before. */
  function LatestBytes(was: seq<byte>, vs: seq<GoString>): seq<byte> {
    if vs == [] then was else OrBytes(vs[|vs| - 1], LatestBytes(was, vs[..|vs| - 1]))
  }

  function LatestInt(was: int, vs: seq<int>): int {
    if vs == [] then was else OrInt(ToInt32(vs[|vs| - 1]), LatestInt(was, vs[..|vs| - 1]))
  }

  function CodecStrings(es: seq<Enrichment>): seq<GoString> { seq(|es|, i requires 0 <= i < |es| => es[i].codecString) }
  function AudioCodecs(es: seq<Enrichment>): seq<GoString> { seq(|es|, i requires 0 <= i < |es| => es[i].audioCodec) }
  function ChannelCounts(es: seq<Enrichment>): seq<int> { seq(|es|, i requires 0 <= i < |es| => es[i].channels) }
  function SampleRates(es: seq<Enrichment>): seq<int> { seq(|es|, i requires 0 <= i < |es| => es[i].sampleRate) }

  function EnrichedAll(p: Probe, es: seq<Enrichment>): Probe {
    if es == [] then p else Enriched(EnrichedAll(p, es[..|es| - 1]), es[|es| - 1])
  }

  lemma {:induction false} EnrichAllDecodes(a: seq<byte>, p: Probe, es: seq<Enrichment>)
    requires DecodeProbe(a) == Some(p)
    ensures DecodeProbe(EnrichAll(a, es)) == Some(EnrichedAll(p, es))
  {
    if es != [] {
      var front := es[..|es| - 1];
      EnrichAllDecodes(a, p, front);
      EnrichCorrect(EnrichAll(a, front), EnrichedAll(p, front), es[|es| - 1]);
    }
  }

  lemma {:induction false} EnrichedAllIsLatest(p: Probe, es: seq<Enrichment>)
    ensures EnrichedAll(p, es) ==
            p.(videoCodecString := LatestBytes(p.videoCodecString, CodecStrings(es)),
            audioOutputCodec := LatestBytes(p.audioOutputCodec, AudioCodecs(es)),
            audioOutputChannels := LatestInt(p.audioOutputChannels, ChannelCounts(es)),
            audioOutputSampleRate := LatestInt(p.audioOutputSampleRate, SampleRates(es)))
  {
    if es != [] {
      var front := es[..|es| - 1];
      EnrichedAllIsLatest(p, front);
      assert CodecStrings(es)[..|es| - 1] == CodecStrings(front);
      assert AudioCodecs(es)[..|es| - 1] == AudioCodecs(front);
      assert ChannelCounts(es)[..|es| - 1] == ChannelCounts(front);
      assert SampleRates(es)[..|es| - 1] == SampleRates(front);
    }
  }

  /** Which value is the latest: the last one that is not empty, or what was there. */
  lemma {:induction false} LatestBytesIs(was: seq<byte>, vs: seq<GoString>)
    ensures (forall i | 0 <= i < |vs| :: vs[i] == []) ==> LatestBytes(was, vs) == was
    ensures forall i | 0 <= i < |vs| && vs[i] != [] && (forall j | i < j < |vs| :: vs[j] == []) :: LatestBytes(was, vs) == vs[i]
  {
    if vs != [] {
      LatestBytesIs(was, vs[..|vs| - 1]);
    }
  }

  lemma {:induction false} LatestIntIs(was: int, vs: seq<int>)
    ensures (forall i | 0 <= i < |vs| :: ToInt32(vs[i]) == 0) ==> LatestInt(was, vs) == was
    ensures forall i | 0 <= i < |vs| && ToInt32(vs[i]) != 0 && (forall j | i < j < |vs| :: ToInt32(vs[j]) == 0) ::
              LatestInt(was, vs) == ToInt32(vs[i])
  {
    if vs != [] {
      LatestIntIs(was, vs[..|vs| - 1]);
    }
  }

  /** Any number of enrichments: every other field is intact, each enriched field keeps its latest non-empty value. */
  lemma EnrichAllCorrect(a: seq<byte>, p: Probe, es: seq<Enrichment>)
    requires DecodeProbe(a) == Some(p)
    ensures DecodeProbe(EnrichAll(a, es)) ==
            Some(p.(videoCodecString := LatestBytes(p.videoCodecString, CodecStrings(es)),
                 audioOutputCodec := LatestBytes(p.audioOutputCodec, AudioCodecs(es)),
                 audioOutputChannels := LatestInt(p.audioOutputChannels, ChannelCounts(es)),
                 audioOutputSampleRate := LatestInt(p.audioOutputSampleRate, SampleRates(es))))
  {
    EnrichAllDecodes(a, p, es);
    EnrichedAllIsLatest(p, es);
  }

  // ----- The marshalling methods -----

  lemma EncodeOneMore(fs: seq<Field>, f: Field)
    ensures Encode(fs + [f]) == Encode(fs) + FieldBytes(f)
  {
    assert (fs + [f])[..|fs|] == fs;
  }

  method MarshalAudioTrack(a: AudioTrack) returns (b: seq<byte>)
    ensures b == Encode(AudioFields(AudioSeen(a)))
    ensures |b| < TWO64
  {
    var m := AudioSeen(a);
    AudioWritable(m);
    b := AppendInt([], 1, ToInt32(a.index));
    b := AppendBytes(b, 2, a.codec);
    b := AppendInt(b, 3, ToInt32(a.channels));
    b := AppendInt(b, 4, ToInt32(a.sampleRate));
    b := AppendBytes(b, 5, a.language);
    b := AppendBool(b, 6, a.isAD);
    b := AppendInt(b, 7, ToInt32(a.bitrateKbps));
    AudioBytes(m);
  }

  /** The encoding of a track, field by field. */
  lemma AudioBytes(m: AudioMsg)
    ensures Encode(AudioFields(m)) ==
            [] + FieldBytes(IntField(1, m.index)) + FieldBytes(BytesField(2, m.codec)) + FieldBytes(IntField(3, m.channels))
            + FieldBytes(IntField(4, m.sampleRate)) + FieldBytes(BytesField(5, m.language))
            + FieldBytes(BoolField(6, m.isAd)) + FieldBytes(IntField(7, m.bitrateKbps))
  {
    var fs := AudioFields(m);
    EncodePrefixes(fs);
    assert fs[..0] == [] && fs[..7] == fs;
    assert Encode(fs[..1]) == Encode(fs[..0]) + FieldBytes(fs[0]);
    assert Encode(fs[..2]) == Encode(fs[..1]) + FieldBytes(fs[1]);
    assert Encode(fs[..3]) == Encode(fs[..2]) + FieldBytes(fs[2]);
    assert Encode(fs[..4]) == Encode(fs[..3]) + FieldBytes(fs[3]);
    assert Encode(fs[..5]) == Encode(fs[..4]) + FieldBytes(fs[4]);
    assert Encode(fs[..6]) == Encode(fs[..5]) + FieldBytes(fs[5]);
    assert Encode(fs[..7]) == Encode(fs[..6]) + FieldBytes(fs[6]);
  }

  lemma EncodePrefixes(fs: seq<Field>)
    ensures forall k | 0 <= k < |fs| :: Encode(fs[..k + 1]) == Encode(fs[..k]) + FieldBytes(fs[k])
  {
    forall k | 0 <= k < |fs| ensures Encode(fs[..k + 1]) == Encode(fs[..k]) + FieldBytes(fs[k]) {
      assert fs[..k + 1] == fs[..k] + [fs[k]];
      EncodeOneMore(fs[..k], fs[k]);
    }
  }

  method MarshalSubtitleTrack(t: SubtitleTrack) returns (b: seq<byte>)
    ensures b == Encode(SubtitleFields(SubtitleSeen(t)))
    ensures |b| < TWO64
  {
    SubtitleWritable(SubtitleSeen(t));
    ghost var fs := SubtitleFields(SubtitleSeen(t));
    EncodePrefixes(fs);
    assert fs[..0] == [] && fs[..3] == fs;
    b := AppendInt([], 1, ToInt32(t.index));
    assert b == Encode(fs[..1]);
    b := AppendBytes(b, 2, t.codec);
    assert b == Encode(fs[..2]);
    b := AppendBytes(b, 3, t.language);
    assert b == Encode(fs[..3]);
  }

  /** The loop that looks for the selected track. */
  method SelectAudio(info: StreamInfo, idx: int) returns (sel: Option<AudioTrack>)
    ensures sel.None? <==> info.audioTracks == []
    ensures (if sel.Some? then sel.value else NO_AUDIO) == SelectedAudio(info, idx)
  {
    var ts := info.audioTracks;
    for i := 0 to |ts|
      invariant FirstWithIndex(ts, idx) == FirstWithIndex(ts[i..], idx)
    {
      if ts[i].index == idx {
        return Some(ts[i]);
      }
      assert ts[i..][1..] == ts[i + 1..];
    }
    return if |ts| > 0 then Some(ts[0]) else None;
  }

  lemma Assoc4(x: seq<byte>, a: seq<byte>, b: seq<byte>, c: seq<byte>, d: seq<byte>)
    ensures x + (a + b + c + d) == x + a + b + c + d
  {
  }

  /** Four fields spelled out. */
  lemma EncodeFour(x: seq<byte>, fs: seq<Field>)
    requires |fs| == 4
    ensures x + Encode(fs) == x + FieldBytes(fs[0]) + FieldBytes(fs[1]) + FieldBytes(fs[2]) + FieldBytes(fs[3])
  {
    EncodePrefixes(fs);
    assert fs[..0] == [] && fs[..4] == fs;
    assert Encode(fs[..1]) == FieldBytes(fs[0]);
    assert Encode(fs[..2]) == Encode(fs[..1]) + FieldBytes(fs[1]);
    assert Encode(fs[..3]) == Encode(fs[..2]) + FieldBytes(fs[2]);
    assert Encode(fs[..4]) == Encode(fs[..3]) + FieldBytes(fs[3]);
    Assoc4(x, FieldBytes(fs[0]), FieldBytes(fs[1]), FieldBytes(fs[2]), FieldBytes(fs[3]));
  }

  /** Writing a field only if what it belongs to is there; when it is not, `v` is the default. */
  method AppendIntIf(present: bool, b: seq<byte>, num: nat, v: int) returns (r: seq<byte>)
    requires 1 <= num < MAX_FIELD && Fits64(v) && (!present ==> v == 0)
    ensures r == b + FieldBytes(IntField(num, v))
  {
    r := b;
    if present { r := AppendInt(b, num, v); }
  }

  method AppendBytesIf(present: bool, b: seq<byte>, num: nat, v: GoString) returns (r: seq<byte>)
    requires 1 <= num < MAX_FIELD && (!present ==> v == [])
    ensures r == b + FieldBytes(BytesField(num, v))
  {
    r := b;
    if present { r := AppendBytes(b, num, v); }
  }

  method AppendBoolIf(present: bool, b: seq<byte>, num: nat, v: bool) returns (r: seq<byte>)
    requires 1 <= num < MAX_FIELD && (!present ==> !v)
    ensures r == b + FieldBytes(BoolField(num, v))
  {
    r := b;
    if present { r := AppendBool(b, num, v); }
  }

  function VideoFields(p: Probe): seq<Field> {
    [BytesField(1, p.videoCodec), IntField(3, p.videoWidth), IntField(4, p.videoHeight),
     BoolField(5, p.videoInterlaced)]
  }

  function AudioSourceFields(p: Probe): seq<Field> {
    [BytesField(6, p.audioSourceCodec), IntField(7, p.audioSourceChannels),
     IntField(8, p.audioSourceSampleRate), IntField(12, p.videoBitDepth)]
  }

  function RateFields(p: Probe): seq<Field> {
    [IntField(13, p.videoFramerateNum), IntField(14, p.videoFramerateDen),
     IntField(15, p.videoBitrateKbps), BytesField(16, p.container)]
  }

  method AppendVideo(video: Option<VideoStream>, ghost p: Probe) returns (b: seq<byte>)
    requires var v := if video.Some? then video.value else NO_VIDEO;
             p.videoCodec == v.codec && p.videoWidth == ToInt32(v.width) && p.videoHeight == ToInt32(v.height)
             && p.videoInterlaced == v.interlaced
    ensures b == Encode(VideoFields(p))
  {
    var v := if video.Some? then video.value else NO_VIDEO;
    b := [];
    b := AppendBytesIf(video.Some?, b, 1, v.codec);
    b := AppendIntIf(video.Some?, b, 3, ToInt32(v.width));
    b := AppendIntIf(video.Some?, b, 4, ToInt32(v.height));
    b := AppendBoolIf(video.Some?, b, 5, v.interlaced);
    EncodeFour([], VideoFields(p));
  }

  method AppendAudioSource(b0: seq<byte>, video: Option<VideoStream>, sel: Option<AudioTrack>, ghost p: Probe)
    returns (b: seq<byte>)
    requires var a := if sel.Some? then sel.value else NO_AUDIO;
             p.audioSourceCodec == a.codec && p.audioSourceChannels == ToInt32(a.channels)
             && p.audioSourceSampleRate == ToInt32(a.sampleRate)
    requires p.videoBitDepth == ToInt32((if video.Some? then video.value else NO_VIDEO).bitDepth)
    ensures b == b0 + Encode(AudioSourceFields(p))
  {
    var a := if sel.Some? then sel.value else NO_AUDIO;
    var v := if video.Some? then video.value else NO_VIDEO;
    b := b0;
    b := AppendBytesIf(sel.Some?, b, 6, a.codec);
    b := AppendIntIf(sel.Some?, b, 7, ToInt32(a.channels));
    b := AppendIntIf(sel.Some?, b, 8, ToInt32(a.sampleRate));
    b := AppendIntIf(video.Some?, b, 12, ToInt32(v.bitDepth));
    EncodeFour(b0, AudioSourceFields(p));
  }

  method AppendRates(b0: seq<byte>, video: Option<VideoStream>, container: GoString, ghost p: Probe)
    returns (b: seq<byte>)
    requires var v := if video.Some? then video.value else NO_VIDEO;
             p.videoFramerateNum == ToInt32(v.framerateN) && p.videoFramerateDen == ToInt32(v.framerateD)
             && p.videoBitrateKbps == ToInt32(v.bitrateKbps)
    requires p.container == container
    ensures b == b0 + Encode(RateFields(p))
  {
    var v := if video.Some? then video.value else NO_VIDEO;
    b := b0;
    b := AppendIntIf(video.Some?, b, 13, ToInt32(v.framerateN));
    b := AppendIntIf(video.Some?, b, 14, ToInt32(v.framerateD));
    b := AppendIntIf(video.Some?, b, 15, ToInt32(v.bitrateKbps));
    b := AppendBytes(b, 16, container);
    EncodeFour(b0, RateFields(p));
  }

  lemma HeadBytes(p: Probe)
    ensures Encode(HeadFields(p)) ==
            Encode(VideoFields(p)) + Encode(AudioSourceFields(p)) + Encode(RateFields(p))
            + FieldBytes(IntField(17, p.durationMs)) + FieldBytes(BoolField(18, p.isLive))
            + FieldBytes(IntField(19, p.selectedAudioIndex))
  {
    var v, a, r := VideoFields(p), AudioSourceFields(p), RateFields(p);
    var f17, f18, f19 := IntField(17, p.durationMs), BoolField(18, p.isLive), IntField(19, p.selectedAudioIndex);
    HeadIsParts(p);
    EncodeAppend(v, a);
    EncodeAppend(v + a, r);
    EncodeOneMore(v + a + r, f17);
    EncodeOneMore(v + a + r + [f17], f18);
    EncodeOneMore(v + a + r + [f17] + [f18], f19);
  }

  lemma HeadIsParts(p: Probe)
    ensures HeadFields(p) == VideoFields(p) + AudioSourceFields(p) + RateFields(p)
                             + [IntField(17, p.durationMs)] + [BoolField(18, p.isLive)] + [IntField(19, p.selectedAudioIndex)]
  {
  }

  /** The scalar fields up to number 19, in the order they are written. */
  method MarshalHead(info: StreamInfo, sel: Option<AudioTrack>, idx: int, ghost p: Probe) returns (b: seq<byte>)
    requires (if sel.Some? then sel.value else NO_AUDIO) == SelectedAudio(info, idx)
    requires p == ProbeSeen(info, idx)
    ensures b == Encode(HeadFields(p))
  {
    b := AppendVideo(info.video, p);
    b := AppendAudioSource(b, info.video, sel, p);
    b := AppendRates(b, info.video, info.container, p);
    b := AppendInt(b, 17, info.durationMs);
    b := AppendBool(b, 18, info.isLive);
    b := AppendInt(b, 19, ToInt32(idx));
    HeadBytes(p);
  }

  method AppendAudioTracks(b0: seq<byte>, ts: seq<AudioTrack>, ghost fs: seq<Field>) returns (b: seq<byte>)
    requires b0 == Encode(fs)
    ensures b == Encode(fs + AudioList(ts))
  {
    b := b0;
    assert fs + AudioList(ts[..0]) == fs;
    for i := 0 to |ts|
      invariant b == Encode(fs + AudioList(ts[..i]))
    {
      var m := MarshalAudioTrack(ts[i]);
      b := AppendBytes(b, 20, m);
      AudioListOneMore(fs, ts, i);
    }
    assert ts[..|ts|] == ts;
  }

  lemma EncodeListOneMore(fs: seq<Field>, list: seq<Field>, f: Field)
    ensures Encode(fs + (list + [f])) == Encode(fs + list) + FieldBytes(f)
  {
    Assoc(fs, list, [f]);
    EncodeOneMore(fs + list, f);
  }

  lemma AudioListSnoc(ts: seq<AudioTrack>, i: nat)
    requires i < |ts|
    ensures AudioList(ts[..i + 1]) == AudioList(ts[..i]) + [BytesField(20, Encode(AudioFields(AudioSeen(ts[i]))))]
  {
    var front := ts[..i + 1];
    assert front[..|front| - 1] == ts[..i] && front[|front| - 1] == ts[i];
  }

  lemma SubtitleListSnoc(ts: seq<SubtitleTrack>, i: nat)
    requires i < |ts|
    ensures SubtitleList(ts[..i + 1]) == SubtitleList(ts[..i]) + [BytesField(21, Encode(SubtitleFields(SubtitleSeen(ts[i]))))]
  {
    var front := ts[..i + 1];
    assert front[..|front| - 1] == ts[..i] && front[|front| - 1] == ts[i];
  }

  lemma AudioListOneMore(fs: seq<Field>, ts: seq<AudioTrack>, i: nat)
    requires i < |ts|
    ensures Encode(fs + AudioList(ts[..i + 1])) ==
            Encode(fs + AudioList(ts[..i])) + FieldBytes(BytesField(20, Encode(AudioFields(AudioSeen(ts[i])))))
  {
    AudioListSnoc(ts, i);
    EncodeListOneMore(fs, AudioList(ts[..i]), BytesField(20, Encode(AudioFields(AudioSeen(ts[i])))));
  }

  method AppendSubtitleTracks(b0: seq<byte>, ts: seq<SubtitleTrack>, ghost fs: seq<Field>) returns (b: seq<byte>)
    requires b0 == Encode(fs)
    ensures b == Encode(fs + SubtitleList(ts))
  {
    b := b0;
    assert fs + SubtitleList(ts[..0]) == fs;
    for i := 0 to |ts|
      invariant b == Encode(fs + SubtitleList(ts[..i]))
    {
      var m := MarshalSubtitleTrack(ts[i]);
      b := AppendBytes(b, 21, m);
      SubtitleListOneMore(fs, ts, i);
    }
    assert ts[..|ts|] == ts;
  }

  lemma SubtitleListOneMore(fs: seq<Field>, ts: seq<SubtitleTrack>, i: nat)
    requires i < |ts|
    ensures Encode(fs + SubtitleList(ts[..i + 1])) ==
            Encode(fs + SubtitleList(ts[..i])) + FieldBytes(BytesField(21, Encode(SubtitleFields(SubtitleSeen(ts[i])))))
  {
    SubtitleListSnoc(ts, i);
    EncodeListOneMore(fs, SubtitleList(ts[..i]), BytesField(21, Encode(SubtitleFields(SubtitleSeen(ts[i])))));
  }

  method AppendTail(b0: seq<byte>, sel: Option<AudioTrack>, ghost p: Probe) returns (b: seq<byte>)
    requires p.audioSourceBitrateKbps == ToInt32((if sel.Some? then sel.value else NO_AUDIO).bitrateKbps)
    ensures b == b0 + FieldBytes(TailField(p))
  {
    var a := if sel.Some? then sel.value else NO_AUDIO;
    b := AppendIntIf(sel.Some?, b0, 22, ToInt32(a.bitrateKbps));
  }

  method MarshalProbe(info: StreamInfo, selectedAudioIndex: int) returns (b: seq<byte>)
    ensures DecodeProbe(b) == Some(ProbeSeen(info, selectedAudioIndex))
  {
    var sel := SelectAudio(info, selectedAudioIndex);
    ghost var p := ProbeSeen(info, selectedAudioIndex);
    b := MarshalHead(info, sel, selectedAudioIndex, p);
    ghost var fs := HeadFields(p);
    b := AppendAudioTracks(b, info.audioTracks, fs);
    b := AppendSubtitleTracks(b, info.subTracks, fs + AudioList(info.audioTracks));
    b := AppendTail(b, sel, p);
    EncodeOneMore(fs + AudioList(info.audioTracks) + SubtitleList(info.subTracks), TailField(p));
    ProbeRoundTrip(info, selectedAudioIndex);
  }

  lemma EnrichCorrectAlways(a: seq<byte>, e: Enrichment)
    ensures DecodeProbe(a).Some? ==>
              DecodeProbe(a + Encode(EnrichFields(e))) == Some(Enriched(DecodeProbe(a).value, e))
  {
    if DecodeProbe(a).Some? {
      EnrichCorrect(a, DecodeProbe(a).value, e);
    }
  }

  method AppendEnrichment(existing: seq<byte>, e: Enrichment) returns (b: seq<byte>)
    ensures b == existing + Encode(EnrichFields(e))
  {
    b := AppendBytes(existing, 2, e.codecString);
    b := AppendBytes(b, 9, e.audioCodec);
    b := AppendInt(b, 10, ToInt32(e.channels));
    b := AppendInt(b, 11, ToInt32(e.sampleRate));
    EncodeFour(existing, EnrichFields(e));
  }

  /** The byte part of EnrichProbeFile. */
  method EnrichProbe(existing: seq<byte>, e: Enrichment) returns (b: seq<byte>)
    ensures b == existing + Encode(EnrichFields(e))
    ensures DecodeProbe(existing).Some? ==> DecodeProbe(b) == Some(Enriched(DecodeProbe(existing).value, e))
  {
    b := AppendEnrichment(existing, e);
    EnrichCorrectAlways(existing, e);
  }
}
