/** Capturing the header of an MPEG transport stream (ISO/IEC 13818-1): the packet
    scanner, the section parsers, and the NAL unit search (Annex B of ITU-T H.264). */
module TSHeader {
  import opened Basics

  const PACKET: int := 188

  /** The 16, 13 and 12 low bits of two bytes. */
  function Bits16(hi: byte, lo: byte): nat { (hi as int) * 256 + lo as int }
  function Bits13(hi: byte, lo: byte): (r: nat) ensures r < 0x2000 { (hi as int) % 32 * 256 + lo as int }
  function Bits12(hi: byte, lo: byte): (r: nat) ensures r < 0x1000 { (hi as int) % 16 * 256 + lo as int }

  // ----- Packet header and payload -----

  function Pid(p: seq<byte>): nat
    requires |p| == PACKET
  {
    Bits13(p[1], p[2])
  }

  predicate Pusi(p: seq<byte>)
    requires |p| == PACKET
  {
    p[1] / 64 % 2 == 1
  }

  predicate HasAdaptation(p: seq<byte>)
    requires |p| == PACKET
  {
    p[3] / 32 % 2 == 1
  }

  function TsPayload(p: seq<byte>): seq<byte>
    requires |p| == PACKET
  {
    var start := if HasAdaptation(p) then 5 + p[4] as int else 4;
    if start >= PACKET then [] else p[start..]
  }

  function SkipPESHeader(payload: seq<byte>): seq<byte> {
    if |payload| < 9 then payload
    else if payload[0] != 0 || payload[1] != 0 || payload[2] != 1 then payload
    else
      var start := 9 + payload[8] as int;
      if start >= |payload| then [] else payload[start..]
  }

  // ----- NAL units -----

  /** A start code 00 00 01 at i, followed by a NAL header of the given type. */
  ghost predicate NalAt(s: seq<byte>, i: int, nalType: int) {
    0 <= i < |s| - 3 && s[i] == 0 && s[i + 1] == 0 && s[i + 2] == 1 && s[i + 3] % 32 == nalType
  }

  ghost predicate HasNal(s: seq<byte>, nalType: int) {
    exists i :: NalAt(s, i, nalType)
  }

  method HasNALType(payload: seq<byte>, nalType: byte) returns (found: bool)
    ensures found <==> HasNal(payload, nalType)
  {
    if |payload| < 4 {
      return false;
    }
    for i := 0 to |payload| - 3
      invariant forall k | 0 <= k < i :: !NalAt(payload, k, nalType)
    {
      if payload[i] == 0 && payload[i + 1] == 0 {
        if payload[i + 2] == 1 {
          if payload[i + 3] % 32 == nalType {
            assert NalAt(payload, i, nalType);
            return true;
          }
        } else if i + 4 < |payload| && payload[i + 2] == 0 && payload[i + 3] == 1 {
          if payload[i + 4] % 32 == nalType {
            assert NalAt(payload, i + 1, nalType);
            return true;
          }
        }
      }
    }
    return false;
  }

  const SPS: byte := 7

  ghost predicate HasSPS(p: seq<byte>)
    requires |p| == PACKET
  {
    HasNal(TsPayload(p), SPS) || HasNal(SkipPESHeader(TsPayload(p)), SPS)
  }

  method FindSPS(p: seq<byte>) returns (found: bool)
    requires |p| == PACKET
    ensures found <==> HasSPS(p)
  {
    var payload := TsPayload(p);
    var pes := SkipPESHeader(payload);
    found := HasNALType(payload, SPS);
    if !found {
      found := HasNALType(pes, SPS);
    }
  }

  // ----- Sections -----

  /** Where the section of a packet starts, if it starts inside the packet. */
  function SectionStart(p: seq<byte>): (r: Option<nat>)
    requires |p| == PACKET
    ensures r.Some? ==> r.value < PACKET
  {
    if HasAdaptation(p) && p[4] as int + 5 > PACKET then None
    else
      var start := if HasAdaptation(p) then 5 + p[4] as int else 4;
      if start >= PACKET - 1 then None
      else
        var offset := start + 1 + p[start] as int;
        if offset >= PACKET then None else Some(offset)
  }

  function SectionLength(data: seq<byte>): nat
    requires |data| >= 12
  {
    Bits12(data[1], data[2])
  }

  /** The end of the loop over a section: before its CRC, and inside the packet. */
  function LoopEnd(data: seq<byte>): int
    requires |data| >= 12
  {
    var e := 3 + SectionLength(data) - 4;
    if e < |data| then e else |data|
  }

  predicate IsPMT(p: seq<byte>)
    requires |p| == PACKET
  {
    var start := SectionStart(p);
    start.Some? && p[start.value] == 0x02
  }

  function ProgramsFrom(data: seq<byte>, pos: nat, end: int): (pid: nat)
    requires end <= |data|
    ensures pid < 0x2000
    decreases end - pos
  {
    if pos + 4 > end then 0
    else if Bits16(data[pos], data[pos + 1]) != 0 then Bits13(data[pos + 2], data[pos + 3])
    else ProgramsFrom(data, pos + 4, end)
  }

  /** The PMT PID a PAT packet announces: that of its first program that is not the network program. */
  function PatPid(p: seq<byte>): (pid: nat)
    requires |p| == PACKET
    ensures pid < 0x2000
  {
    var start := SectionStart(p);
    if start.None? || PACKET - start.value < 12 then 0
    else ProgramsFrom(p[start.value..], 8, LoopEnd(p[start.value..]))
  }

  method ParsePATForPMTPID(p: seq<byte>) returns (pid: nat)
    requires |p| == PACKET
    ensures pid == PatPid(p)
  {
    var start := SectionStart(p);
    if start.None? { return 0; }
    var data := p[start.value..];
    if |data| < 12 { return 0; }
    var pos := 8;
    var end := LoopEnd(data);
    while pos + 4 <= end
      invariant 8 <= pos
      invariant ProgramsFrom(data, pos, end) == PatPid(p)
    {
      if Bits16(data[pos], data[pos + 1]) != 0 {
        return Bits13(data[pos + 2], data[pos + 3]);
      }
      pos := pos + 4;
    }
    return 0;
  }

  predicate IsVideoType(t: int) {
    t == 0x1b || t == 0x24 || t == 0x02
  }

  function StreamsFrom(data: seq<byte>, pos: nat, end: int): (pid: nat)
    requires end <= |data|
    ensures pid < 0x2000
    decreases end - pos
  {
    if pos + 5 > end then 0
    else if IsVideoType(data[pos]) then Bits13(data[pos + 1], data[pos + 2])
    else StreamsFrom(data, pos + 5 + Bits12(data[pos + 3], data[pos + 4]), end)
  }

  /** The PID of the first video stream a PMT packet lists, 0 if it lists none. */
  function PmtPid(p: seq<byte>): (pid: nat)
    requires |p| == PACKET
    ensures pid < 0x2000
  {
    var start := SectionStart(p);
    if start.None? || PACKET - start.value < 12 then 0
    else
      var data := p[start.value..];
      StreamsFrom(data, 12 + Bits12(data[10], data[11]), LoopEnd(data))
  }

  method ParsePMTForVideoPID(p: seq<byte>) returns (pid: nat)
    requires |p| == PACKET
    ensures pid == PmtPid(p)
  {
    var start := SectionStart(p);
    if start.None? { return 0; }
    var data := p[start.value..];
    if |data| < 12 { return 0; }
    var pos := 12 + Bits12(data[10], data[11]);
    var end := LoopEnd(data);
    while pos + 5 <= end
      invariant 12 <= pos
      invariant StreamsFrom(data, pos, end) == PmtPid(p)
      decreases end - pos
    {
      if IsVideoType(data[pos]) {
        return Bits13(data[pos + 1], data[pos + 2]);
      }
      pos := pos + 5 + Bits12(data[pos + 3], data[pos + 4]);
    }
    return 0;
  }

  // ----- The capture -----

  datatype Capture = Capture(pat: Option<seq<byte>>, pmt: Option<seq<byte>>, videoPid: nat, sps: Option<seq<byte>>)

  const START := Capture(None, None, 0, None)

  predicate IsPatPacket(p: seq<byte>)
    requires |p| == PACKET
  {
    Pid(p) == 0 && Pusi(p)
  }

  predicate IsPmtPacket(p: seq<byte>)
    requires |p| == PACKET
  {
    Pusi(p) && Pid(p) != 0 && Pid(p) != 0x1fff && IsPMT(p)
  }

  /** What one packet does to a capture that is not complete. */
  ghost function Take(c: Capture, p: seq<byte>): Capture
    requires |p| == PACKET
  {
    var c1 := if IsPatPacket(p) && c.pat.None? then c.(pat := Some(p), videoPid := PatPid(p)) else c;
    var c2 := if c1.pmt.None? && IsPmtPacket(p) then
                c1.(pmt := Some(p), videoPid := if PmtPid(p) > 0 then PmtPid(p) else c1.videoPid)
              else c1;
    if c2.pat.Some? && c2.pmt.Some? && c2.videoPid > 0 && Pid(p) == c2.videoPid && Pusi(p) && HasSPS(p)
    then c2.(sps := Some(p))
    else c2
  }

  /** Scanning a buffer: resynchronise on 0x47, take whole packets, stop when the capture is complete. */
  ghost function Scan(c: Capture, buf: seq<byte>): (Capture, seq<byte>)
    decreases |buf|
  {
    if c.sps.Some? || |buf| < PACKET then (c, buf)
    else if buf[0] != 0x47 then Scan(c, buf[1..])
    else Scan(Take(c, buf[..PACKET]), buf[PACKET..])
  }

  /** Scanning in two steps is scanning in one. */
  lemma {:induction false} ScanAppend(c: Capture, a: seq<byte>, b: seq<byte>)
    ensures var (c', rest) := Scan(c, a); Scan(c, a + b) == Scan(c', rest + b)
    decreases |a|
  {
    if c.sps.Some? || |a| < PACKET {
    } else if a[0] != 0x47 {
      assert (a + b)[1..] == a[1..] + b;
      ScanAppend(c, a[1..], b);
    } else {
      assert (a + b)[..PACKET] == a[..PACKET];
      assert (a + b)[PACKET..] == a[PACKET..] + b;
      ScanAppend(Take(c, a[..PACKET]), a[PACKET..], b);
    }
  }

  function Flatten(chunks: seq<seq<byte>>): seq<byte> {
    if chunks == [] then [] else Flatten(chunks[..|chunks| - 1]) + chunks[|chunks| - 1]
  }

  datatype Header = Captured(bytes: seq<byte>) | NoHeader | ReadError

  /** The result as a function of the bytes that were read before the read that failed or ended. */
  ghost function HeaderOf(stream: seq<byte>, eof: bool): Header {
    var c := Scan(START, stream).0;
    if c.sps.Some? && c.pat.Some? && c.pmt.Some? then Captured(c.pat.value + c.pmt.value + c.sps.value)
    else if eof then NoHeader else ReadError
  }

  /** One packet of the loop body; the packet that completes the capture ends the loop. */
  method TakePacket(pkt: seq<byte>, pat: Option<seq<byte>>, pmt: Option<seq<byte>>, videoPid: nat)
    returns (pat': Option<seq<byte>>, pmt': Option<seq<byte>>, videoPid': nat, hit: bool)
    requires |pkt| == PACKET
    ensures Capture(pat', pmt', videoPid', if hit then Some(pkt) else None) == Take(Capture(pat, pmt, videoPid, None), pkt)
    ensures hit ==> pat'.Some? && pmt'.Some?
  {
    pat', pmt', videoPid', hit := pat, pmt, videoPid, false;
    var pid, pusi := Pid(pkt), Pusi(pkt);
    if pid == 0 && pusi && pat'.None? {
      pat' := Some(pkt);
      videoPid' := ParsePATForPMTPID(pkt);
    }
    if pmt'.None? && pusi && pid != 0 && pid != 0x1fff {
      if IsPMT(pkt) {
        pmt' := Some(pkt);
        var vp := ParsePMTForVideoPID(pkt);
        if vp > 0 {
          videoPid' := vp;
        }
      }
    }
    if pat'.Some? && pmt'.Some? && videoPid' > 0 && pid == videoPid' && pusi {
      hit := FindSPS(pkt);
    }
  }

  /** The reads of the stream: `chunks` came without an error, then a read gave `tail` together with
      the end of the stream or another error. */
  method ExtractTSHeader(chunks: seq<seq<byte>>, tail: seq<byte>, eof: bool) returns (r: Header)
    ensures r == HeaderOf(Flatten(chunks), eof)
  {
    var buf: seq<byte> := [];
    var pat, pmt, videoPid := None, None, 0;
    var videoPkts: seq<seq<byte>> := [];
    for i := 0 to |chunks|
      invariant videoPkts == []
      invariant |buf| < PACKET
      invariant Scan(START, Flatten(chunks[..i])) == (Capture(pat, pmt, videoPid, None), buf)
    {
      ghost var c0 := Capture(pat, pmt, videoPid, None);
      ScanAppend(START, Flatten(chunks[..i]), chunks[i]);
      FlattenOneMore(chunks, i);
      buf := buf + chunks[i];
      while |buf| >= PACKET
        invariant Scan(START, Flatten(chunks[..i + 1])) == Scan(Capture(pat, pmt, videoPid, None), buf)
        decreases |buf|
      {
        if buf[0] != 0x47 {
          buf := buf[1..];
          continue;
        }
        var pkt := buf[..PACKET];
        buf := buf[PACKET..];
        var hit;
        pat, pmt, videoPid, hit := TakePacket(pkt, pat, pmt, videoPid);
        if hit {
          videoPkts := videoPkts + [pkt];
          ScanPrefix(START, chunks, i + 1);
          return Captured(pat.value + pmt.value + videoPkts[0]);
        }
      }
    }
    assert chunks[..|chunks|] == chunks;
    buf := buf + tail;
    if !eof && |videoPkts| == 0 {
      return ReadError;
    }
    return NoHeader;
  }

  lemma FlattenOneMore(chunks: seq<seq<byte>>, i: nat)
    requires i < |chunks|
    ensures Flatten(chunks[..i + 1]) == Flatten(chunks[..i]) + chunks[i]
  {
    assert chunks[..i + 1][..i] == chunks[..i];
  }

  /** A complete capture is not changed by what follows. */
  lemma {:induction false} ScanPrefix(c: Capture, chunks: seq<seq<byte>>, n: nat)
    requires n <= |chunks| && Scan(c, Flatten(chunks[..n])).0.sps.Some?
    ensures Scan(c, Flatten(chunks)).0 == Scan(c, Flatten(chunks[..n])).0
    decreases |chunks| - n
  {
    if n == |chunks| {
      assert chunks[..n] == chunks;
    } else {
      FlattenOneMore(chunks, n);
      ScanAppend(c, Flatten(chunks[..n]), chunks[n]);
      ScanPrefix(c, chunks, n + 1);
    }
  }

  // ----- What is captured, in terms of the packets of the stream -----

  /** The packets of a stream, resynchronising on 0x47. */
  function Packets(buf: seq<byte>): (ps: seq<seq<byte>>)
    ensures forall i | 0 <= i < |ps| :: |ps[i]| == PACKET
    decreases |buf|
  {
    if |buf| < PACKET then []
    else if buf[0] != 0x47 then Packets(buf[1..])
    else [buf[..PACKET]] + Packets(buf[PACKET..])
  }

  /** Where packet i starts. */
  function Offset(buf: seq<byte>, i: nat): (o: nat)
    requires i < |Packets(buf)|
    decreases |buf|
  {
    if buf[0] != 0x47 then 1 + Offset(buf[1..], i)
    else if i == 0 then 0 else PACKET + Offset(buf[PACKET..], i - 1)
  }

  lemma SliceShift(buf: seq<byte>, k: nat, o: nat, n: nat)
    requires k + o + n <= |buf|
    ensures buf[k..][o..o + n] == buf[k + o..k + o + n]
  {
  }

  /** Every packet is a whole slice of the stream that starts with the sync byte. */
  lemma {:induction false} PacketIsSlice(buf: seq<byte>, i: nat)
    requires i < |Packets(buf)|
    ensures var o := Offset(buf, i);
            o + PACKET <= |buf| && buf[o] == 0x47 && Packets(buf)[i] == buf[o..o + PACKET]
    decreases |buf|
  {
    if buf[0] != 0x47 {
      PacketIsSlice(buf[1..], i);
      var o := Offset(buf[1..], i);
      SliceShift(buf, 1, o, PACKET);
    } else if i > 0 {
      PacketIsSlice(buf[PACKET..], i - 1);
      var o := Offset(buf[PACKET..], i - 1);
      SliceShift(buf, PACKET, o, PACKET);
    }
  }

  type PacketList = ps: seq<seq<byte>> | forall i | 0 <= i < |ps| :: |ps[i]| == PACKET

  ghost function TakeAll(c: Capture, ps: PacketList): Capture
    decreases |ps|
  {
    if c.sps.Some? || ps == [] then c else TakeAll(Take(c, ps[0]), ps[1..])
  }

  lemma {:induction false} ScanIsTakeAll(c: Capture, buf: seq<byte>)
    ensures Scan(c, buf).0 == TakeAll(c, Packets(buf))
    decreases |buf|
  {
    if c.sps.Some? || |buf| < PACKET {
    } else if buf[0] != 0x47 {
      ScanIsTakeAll(c, buf[1..]);
    } else {
      ScanIsTakeAll(Take(c, buf[..PACKET]), buf[PACKET..]);
      assert Packets(buf)[1..] == Packets(buf[PACKET..]);
    }
  }

  /** The first packet below n that is a PAT (a PMT), or n. */
  function FirstPat(ps: PacketList, n: nat): (i: nat)
    requires n <= |ps|
    ensures i <= n && (i < n ==> IsPatPacket(ps[i])) && forall k | 0 <= k < i :: !IsPatPacket(ps[k])
  {
    if n == 0 then 0
    else
      var i := FirstPat(ps, n - 1);
      if i < n - 1 || IsPatPacket(ps[n - 1]) then i else n
  }

  function FirstPmt(ps: PacketList, n: nat): (i: nat)
    requires n <= |ps|
    ensures i <= n && (i < n ==> IsPmtPacket(ps[i])) && forall k | 0 <= k < i :: !IsPmtPacket(ps[k])
  {
    if n == 0 then 0
    else
      var i := FirstPmt(ps, n - 1);
      if i < n - 1 || IsPmtPacket(ps[n - 1]) then i else n
  }

  /** The video PID known after n packets: the later of PAT and PMT has the say, except
      that a PMT without a video stream leaves the PID as it is. */
  function VideoPid(ps: PacketList, n: nat): nat
    requires n <= |ps|
  {
    var i, j := FirstPat(ps, n), FirstPmt(ps, n);
    if i < n && j < n then (if i < j && PmtPid(ps[j]) > 0 then PmtPid(ps[j]) else PatPid(ps[i]))
    else if i < n then PatPid(ps[i])
    else if j < n then PmtPid(ps[j])
    else 0
  }

  /** The packet starts a unit of the video PID, if that is known, and holds an SPS. */
  ghost predicate StartsVideo(p: seq<byte>, pid: nat)
    requires |p| == PACKET
  {
    pid > 0 && Pid(p) == pid && Pusi(p) && HasSPS(p)
  }

  /** Packet k completes the capture: both tables are known and it starts a unit of the video PID with an SPS. */
  ghost predicate Completes(ps: PacketList, k: nat)
    requires k < |ps|
  {
    FirstPat(ps, k + 1) <= k && FirstPmt(ps, k + 1) <= k && StartsVideo(ps[k], VideoPid(ps, k + 1))
  }

  /** k is the first packet that completes the capture, or the number of packets if none does. */
  ghost predicate IsFirstToComplete(ps: PacketList, k: nat) {
    && k <= |ps|
    && (k < |ps| ==> Completes(ps, k))
    && forall m: nat | m < k :: !Completes(ps, m)
  }

  lemma FirstToCompleteExists(ps: PacketList)
    ensures exists k: nat :: IsFirstToComplete(ps, k)
  {
    var k: nat := 0;
    while k < |ps| && !Completes(ps, k)
      invariant k <= |ps|
      invariant forall m: nat | m < k :: !Completes(ps, m)
    {
      k := k + 1;
    }
    assert IsFirstToComplete(ps, k);
  }

  ghost function FirstToComplete(ps: PacketList): (k: nat)
    ensures IsFirstToComplete(ps, k)
  {
    FirstToCompleteExists(ps);
    var k: nat :| IsFirstToComplete(ps, k);
    k
  }

  ghost function After(ps: PacketList, n: nat): Capture
    requires n <= |ps|
  {
    var i, j := FirstPat(ps, n), FirstPmt(ps, n);
    Capture(if i < n then Some(ps[i]) else None, if j < n then Some(ps[j]) else None, VideoPid(ps, n), None)
  }

  lemma AfterOneMore(ps: PacketList, n: nat)
    requires n < |ps|
    ensures Take(After(ps, n), ps[n]) ==
            if Completes(ps, n) then After(ps, n + 1).(sps := Some(ps[n])) else After(ps, n + 1)
  {
  }

  lemma TakeAllStep(ps: PacketList, n: nat)
    requires n < |ps|
    ensures TakeAll(After(ps, n), ps[n..]) == TakeAll(Take(After(ps, n), ps[n]), ps[n + 1..])
  {
    assert ps[n..][0] == ps[n] && ps[n..][1..] == ps[n + 1..];
  }

  lemma {:induction false} TakeAllShape(ps: PacketList, n: nat, k: nat)
    requires n <= k && IsFirstToComplete(ps, k)
    ensures TakeAll(After(ps, n), ps[n..]) ==
            if k < |ps| then After(ps, k + 1).(sps := Some(ps[k])) else After(ps, |ps|)
    decreases |ps| - n
  {
    if n < |ps| {
      TakeAllStep(ps, n);
      AfterOneMore(ps, n);
      if n < k {
        TakeAllShape(ps, n + 1, k);
      }
    }
  }

  lemma FirstStays(ps: PacketList, n: nat, m: nat)
    requires n <= m <= |ps|
    ensures FirstPat(ps, n) < n ==> FirstPat(ps, m) == FirstPat(ps, n)
    ensures FirstPmt(ps, n) < n ==> FirstPmt(ps, m) == FirstPmt(ps, n)
    decreases m
  {
    if n < m {
      FirstStays(ps, n, m - 1);
    }
  }

  /** The result, declaratively: a header is captured exactly if some packet completes the capture,
      and then it is the first PAT, the first PMT and the first completing packet of the stream. */
  lemma HeaderIsThreePackets(stream: seq<byte>, eof: bool)
    ensures var ps: PacketList := Packets(stream);
            var i, j, k := FirstPat(ps, |ps|), FirstPmt(ps, |ps|), FirstToComplete(ps);
            && (k == |ps| ==> HeaderOf(stream, eof) == if eof then NoHeader else ReadError)
            && (k < |ps| ==> i <= k && j <= k && HeaderOf(stream, eof) == Captured(ps[i] + ps[j] + ps[k]))
  {
    var ps: PacketList := Packets(stream);
    ScanIsTakeAll(START, stream);
    CaptureShape(ps, FirstToComplete(ps));
  }

  lemma CaptureShape(ps: PacketList, k: nat)
    requires IsFirstToComplete(ps, k)
    ensures k == |ps| ==> TakeAll(START, ps).sps == None
    ensures k < |ps| ==>
              var i, j := FirstPat(ps, |ps|), FirstPmt(ps, |ps|);
              var c := TakeAll(START, ps);
              i <= k && j <= k && c.pat == Some(ps[i]) && c.pmt == Some(ps[j]) && c.sps == Some(ps[k])
  {
    TakeAllFromStart(ps, k);
    if k < |ps| {
      FirstStays(ps, k + 1, |ps|);
    }
  }

  lemma TakeAllFromStart(ps: PacketList, k: nat)
    requires IsFirstToComplete(ps, k)
    ensures TakeAll(START, ps) == if k < |ps| then After(ps, k + 1).(sps := Some(ps[k])) else After(ps, |ps|)
  {
    assert ps[0..] == ps;
    assert After(ps, 0) == START;
    TakeAllShape(ps, 0, k);
  }

  /** With the PAT before the PMT and a video stream listed, the completing packet carries that stream. */
  lemma CompletingPid(ps: PacketList, k: nat)
    requires k < |ps|
    ensures Completes(ps, k) ==>
              var i, j := FirstPat(ps, |ps|), FirstPmt(ps, |ps|);
              && i <= k && j <= k
              && (i < j && PmtPid(ps[j]) > 0 ==> Pid(ps[k]) == PmtPid(ps[j]))
              && (i > j || PmtPid(ps[j]) == 0 ==> Pid(ps[k]) == PatPid(ps[i]))
  {
    FirstStays(ps, k + 1, |ps|);
  }

  /** A packet completes the capture if and only if the first PAT and the first PMT of the stream are there by then, it
      has the PID that is waited for, and it starts a unit whose payload holds a sequence parameter set. */
  lemma CompletesIff(ps: PacketList, k: nat)
    requires k < |ps|
    ensures var i, j := FirstPat(ps, |ps|), FirstPmt(ps, |ps|);
            Completes(ps, k) <==>
            && i <= k && j <= k && Pusi(ps[k]) && HasNal(TsPayload(ps[k]), 7)
            && Pid(ps[k]) == (if i < j && PmtPid(ps[j]) > 0 then PmtPid(ps[j]) else PatPid(ps[i])) > 0
  {
    FirstStays(ps, k + 1, |ps|);
    FirstSoFar(ps, k + 1, |ps|);
    SPSInPayload(ps[k]);
  }

  lemma FirstSoFar(ps: PacketList, n: nat, m: nat)
    requires n <= m <= |ps|
    ensures FirstPat(ps, m) < n ==> FirstPat(ps, n) == FirstPat(ps, m)
    ensures FirstPmt(ps, m) < n ==> FirstPmt(ps, n) == FirstPmt(ps, m)
  {
    FirstStays(ps, n, m);
  }

  /** Skipping a PES header finds nothing that the search of the whole payload does not find. */
  lemma SPSInPayload(p: seq<byte>)
    requires |p| == PACKET
    ensures HasSPS(p) <==> HasNal(TsPayload(p), 7)
  {
    var x := TsPayload(p);
    if i :| NalAt(SkipPESHeader(x), i, SPS) {
      assert NalAt(x, i + |x| - |SkipPESHeader(x)|, SPS);
    }
  }

  // ----- Where packets are found -----

  /** Where the search for packet i starts: at the beginning, or behind the packet before. */
  function SearchStart(buf: seq<byte>, i: nat): nat
    requires i <= |Packets(buf)|
  {
    if i == 0 then 0 else Offset(buf, i - 1) + PACKET
  }

  /** Each packet starts at the first sync byte that is found from the end of the one before, and after the last packet
      there is no sync byte with a whole packet's length behind it. */
  lemma {:induction false} FirstSyncByte(buf: seq<byte>, i: nat, at: nat)
    requires i <= |Packets(buf)| && SearchStart(buf, i) <= at && at + PACKET <= |buf|
    ensures i < |Packets(buf)| ==> SearchStart(buf, i) <= Offset(buf, i) && (at < Offset(buf, i) ==> buf[at] != 0x47)
    ensures i == |Packets(buf)| ==> buf[at] != 0x47
    decreases |buf|
  {
    if buf[0] != 0x47 {
      if i > 0 {
        FirstSyncByte(buf[1..], i, at - 1);
      } else if at > 0 {
        FirstSyncByte(buf[1..], i, at - 1);
      }
    } else if i > 0 {
      var rest := buf[PACKET..];
      assert Packets(buf)[1..] == Packets(rest);
      FirstSyncByte(rest, i - 1, at - PACKET);
    }
  }

  // ----- What arrives together with the end of the stream -----

  /** More bytes add packets behind those there are, and the packets there were are the ones that end in the stream. */
  lemma {:induction false} PacketsExtend(stream: seq<byte>, tail: seq<byte>)
    ensures Packets(stream) <= Packets(stream + tail)
    ensures forall i: nat | i < |Packets(stream + tail)| ::
              i < |Packets(stream)| <==> Offset(stream + tail, i) + PACKET <= |stream|
    decreases |stream|
  {
    var all := stream + tail;
    if |stream| >= PACKET {
      if stream[0] != 0x47 {
        assert all[1..] == stream[1..] + tail;
        PacketsExtend(stream[1..], tail);
      } else {
        assert all[..PACKET] == stream[..PACKET] && all[PACKET..] == stream[PACKET..] + tail;
        PacketsExtend(stream[PACKET..], tail);
        forall i: nat | i < |Packets(all)|
          ensures i < |Packets(stream)| <==> Offset(all, i) + PACKET <= |stream|
        {
          if i > 0 {
            assert i - 1 < |Packets(all[PACKET..])|;
          }
        }
      }
    }
  }

  lemma {:induction false} FirstsAgree(ps: PacketList, qs: PacketList, n: nat)
    requires n <= |ps| && ps <= qs
    ensures FirstPat(ps, n) == FirstPat(qs, n) && FirstPmt(ps, n) == FirstPmt(qs, n)
  {
    if n > 0 {
      FirstsAgree(ps, qs, n - 1);
      assert ps[n - 1] == qs[n - 1];
    }
  }

  lemma VideoPidAgrees(ps: PacketList, qs: PacketList, n: nat)
    requires n <= |ps| && ps <= qs
    ensures VideoPid(ps, n) == VideoPid(qs, n)
  {
    FirstsAgree(ps, qs, n);
    var i, j := FirstPat(ps, n), FirstPmt(ps, n);
    assert i < n ==> ps[i] == qs[i];
    assert j < n ==> ps[j] == qs[j];
  }

  lemma CompletesAgree(ps: PacketList, qs: PacketList, k: nat)
    requires k < |ps| && ps <= qs
    ensures Completes(ps, k) <==> Completes(qs, k)
  {
    FirstsAgree(ps, qs, k + 1);
    VideoPidAgrees(ps, qs, k + 1);
    var p, i, j, v := ps[k], FirstPat(ps, k + 1), FirstPmt(ps, k + 1), VideoPid(ps, k + 1);
    assert qs[k] == p;
    var here := i <= k && j <= k && StartsVideo(p, v);
    assert Completes(ps, k) == here;
    assert Completes(qs, k) == here;
  }

  lemma FirstIsUnique(ps: PacketList, k: nat)
    requires IsFirstToComplete(ps, k)
    ensures FirstToComplete(ps) == k
  {
    var m := FirstToComplete(ps);
  }

  /** Of fewer packets, the first to complete is the same one, or there is none. */
  lemma FirstOfFewer(few: PacketList, ps: PacketList)
    requires few <= ps
    ensures FirstToComplete(few) == if FirstToComplete(ps) < |few| then FirstToComplete(ps) else |few|
  {
    var k := FirstToComplete(ps);
    forall m: nat | m < |few| ensures Completes(few, m) <==> Completes(ps, m) {
      CompletesAgree(few, ps, m);
    }
    FirstIsUnique(few, if k < |few| then k else |few|);
  }

  /** Bytes that arrive in the read that ends the stream, or fails, are not scanned.  That changes the result if and
      only if the first packet that completes the capture ends among them. */
  lemma TailLostIff(stream: seq<byte>, tail: seq<byte>, eof: bool)
    ensures var ps: PacketList := Packets(stream + tail);
            var k := FirstToComplete(ps);
            HeaderOf(stream, eof) != HeaderOf(stream + tail, eof) <==>
            k < |ps| && Offset(stream + tail, k) + PACKET > |stream|
  {
    var ps: PacketList, few: PacketList := Packets(stream + tail), Packets(stream);
    PacketsExtend(stream, tail);
    FirstOfFewer(few, ps);
    HeaderIsThreePackets(stream, eof);
    HeaderIsThreePackets(stream + tail, eof);
    if FirstToComplete(ps) < |few| {
      SameTables(few, ps, FirstToComplete(ps));
    }
  }

  lemma SameTables(few: PacketList, ps: PacketList, k: nat)
    requires few <= ps && k < |few| && FirstPat(ps, k + 1) <= k && FirstPmt(ps, k + 1) <= k
    ensures FirstPat(ps, |ps|) == FirstPat(few, |few|) <= k && FirstPmt(ps, |ps|) == FirstPmt(few, |few|) <= k
  {
    FirstsAgree(few, ps, |few|);
    FirstStays(ps, k + 1, |ps|);
    FirstStays(ps, k + 1, |few|);
  }

  function Padded(head: seq<byte>): (p: seq<byte>)
    requires |head| <= PACKET
    ensures |p| == PACKET && head <= p
  {
    head + seq(PACKET - |head|, _ => 0)
  }

  /** A PAT that announces PID 0x100, a PMT on it that lists H.264 on PID 0x101, and the start of an SPS there. */
  const PAT_PACKET := Padded([0x47, 0x40, 0, 0x10, 0, 0, 0xb0, 13, 0, 1, 0xc1, 0, 0, 0, 1, 0xe1, 0])
  const PMT_PACKET := Padded([0x47, 0x41, 0, 0x10, 0, 2, 0xb0, 18, 0, 1, 0xc1, 0, 0, 0xe1, 1, 0xf0, 0, 0x1b, 0xe1, 1, 0xf0, 0])
  const SPS_PACKET := Padded([0x47, 0x41, 1, 0x10, 0, 0, 1, 0x67])

  lemma PatOfWitness()
    ensures IsPatPacket(PAT_PACKET) && !IsPmtPacket(PAT_PACKET) && PatPid(PAT_PACKET) == 0x100
  {
    var p := PAT_PACKET;
    assert p[1] == 0x40 && p[2] == 0 && p[3] == 0x10 && p[4] == 0;
    assert p[6] == 0xb0 && p[7] == 13 && p[13] == 0 && p[14] == 1 && p[15] == 0xe1 && p[16] == 0;
    OneProgram(p);
  }

  /** A PAT packet without an adaptation field whose only program has PID 0x100. */
  lemma OneProgram(p: seq<byte>)
    requires |p| == PACKET && p[3] == 0x10 && p[4] == 0
    requires p[6] == 0xb0 && p[7] == 13 && p[13] == 0 && p[14] == 1 && p[15] == 0xe1 && p[16] == 0
    ensures PatPid(p) == 0x100
  {
    assert SectionStart(p) == Some(5);
    var data := p[5..];
    assert LoopEnd(data) == 12;
    assert ProgramsFrom(data, 8, 12) == 0x100;
  }

  lemma PmtOfWitness()
    ensures IsPmtPacket(PMT_PACKET) && !IsPatPacket(PMT_PACKET) && Pid(PMT_PACKET) == 0x100 && PmtPid(PMT_PACKET) == 0x101
  {
    assert PMT_PACKET[1] == 0x41 && PMT_PACKET[2] == 0 && PMT_PACKET[3] == 0x10 && PMT_PACKET[4] == 0 && PMT_PACKET[5] == 2;
    assert SectionStart(PMT_PACKET) == Some(5);
    var data := PMT_PACKET[5..];
    assert data[1] == 0xb0 && data[2] == 18 && data[10] == 0xf0 && data[11] == 0;
    assert LoopEnd(data) == 17;
    assert data[12] == 0x1b && data[13] == 0xe1 && data[14] == 1;
    assert StreamsFrom(data, 12, 17) == 0x101;
  }

  lemma TablesOfWitness()
    ensures IsPatPacket(PAT_PACKET) && !IsPmtPacket(PAT_PACKET) && PatPid(PAT_PACKET) == 0x100
    ensures IsPmtPacket(PMT_PACKET) && !IsPatPacket(PMT_PACKET) && Pid(PMT_PACKET) == 0x100 && PmtPid(PMT_PACKET) == 0x101
  {
    PatOfWitness();
    PmtOfWitness();
  }

  lemma VideoOfWitness()
    ensures Pid(SPS_PACKET) == 0x101 && Pusi(SPS_PACKET) && HasSPS(SPS_PACKET)
  {
    assert TsPayload(SPS_PACKET) == SPS_PACKET[4..];
    assert NalAt(TsPayload(SPS_PACKET), 0, 7);
  }

  lemma OnePacketMore(p: seq<byte>, rest: seq<byte>)
    requires |p| == PACKET && p[0] == 0x47
    ensures Packets(p + rest) == [p] + Packets(rest)
  {
    assert (p + rest)[..PACKET] == p && (p + rest)[PACKET..] == rest;
  }

  lemma CompletedByThird(ps: PacketList, p: seq<byte>)
    requires |p| == PACKET && Pid(p) == 0x101 && Pusi(p) && HasSPS(p)
    requires ps == [PAT_PACKET, PMT_PACKET, p]
    ensures FirstToComplete(ps) == 2 && FirstPat(ps, 3) == 0 && FirstPmt(ps, 3) == 1
  {
    TablesOfWitness();
    assert FirstPat(ps, 1) == 0 && FirstPmt(ps, 1) == 1;
    assert FirstPat(ps, 2) == 0 && FirstPmt(ps, 2) == 1;
    assert !Completes(ps, 0) && !Completes(ps, 1);
    assert FirstPat(ps, 3) == 0 && FirstPmt(ps, 3) == 1;
    assert VideoPid(ps, 3) == 0x101;
    FirstIsUnique(ps, 2);
  }

  lemma PacketsOfWitness()
    ensures Packets(PAT_PACKET + PMT_PACKET) == [PAT_PACKET, PMT_PACKET]
    ensures Packets(PAT_PACKET + PMT_PACKET + SPS_PACKET) == [PAT_PACKET, PMT_PACKET, SPS_PACKET]
  {
    OnePacketMore(SPS_PACKET, []);
    OnePacketMore(PMT_PACKET, SPS_PACKET + []);
    OnePacketMore(PAT_PACKET, PMT_PACKET + (SPS_PACKET + []));
    assert PAT_PACKET + PMT_PACKET + SPS_PACKET == PAT_PACKET + (PMT_PACKET + (SPS_PACKET + []));
    OnePacketMore(PMT_PACKET, []);
    OnePacketMore(PAT_PACKET, PMT_PACKET + []);
    assert PAT_PACKET + PMT_PACKET == PAT_PACKET + (PMT_PACKET + []);
  }

  /** PAT, PMT and any start of a sequence parameter set on the PMT's video PID make a header. */
  lemma HeaderOfThree(p: seq<byte>)
    requires |p| == PACKET && p[0] == 0x47 && Pid(p) == 0x101 && Pusi(p) && HasSPS(p)
    ensures HeaderOf(PAT_PACKET + PMT_PACKET + p, true) == Captured(PAT_PACKET + PMT_PACKET + p)
  {
    OnePacketMore(p, []);
    OnePacketMore(PMT_PACKET, p + []);
    OnePacketMore(PAT_PACKET, PMT_PACKET + (p + []));
    var stream := PAT_PACKET + PMT_PACKET + p;
    assert stream == PAT_PACKET + (PMT_PACKET + (p + []));
    var ps: PacketList := Packets(stream);
    assert ps == [PAT_PACKET, PMT_PACKET, p];
    CompletedByThird(ps, p);
    HeaderIsThreePackets(stream, true);
  }

  /** It matters which table comes first: with the PMT in front, the same three packets give no header, because the
      PID that the PAT announces is waited for. */
  lemma PmtFirst()
    ensures HeaderOf(PAT_PACKET + PMT_PACKET + SPS_PACKET, true) == Captured(PAT_PACKET + PMT_PACKET + SPS_PACKET)
    ensures HeaderOf(PMT_PACKET + PAT_PACKET + SPS_PACKET, true) == NoHeader
  {
    TailLost();
    OnePacketMore(SPS_PACKET, []);
    OnePacketMore(PAT_PACKET, SPS_PACKET + []);
    OnePacketMore(PMT_PACKET, PAT_PACKET + (SPS_PACKET + []));
    var stream := PMT_PACKET + PAT_PACKET + SPS_PACKET;
    assert stream == PMT_PACKET + (PAT_PACKET + (SPS_PACKET + []));
    var ps: PacketList := Packets(stream);
    assert ps == [PMT_PACKET, PAT_PACKET, SPS_PACKET];
    NotCompleted(ps);
    HeaderIsThreePackets(stream, true);
  }

  lemma NotCompleted(ps: PacketList)
    requires ps == [PMT_PACKET, PAT_PACKET, SPS_PACKET]
    ensures FirstToComplete(ps) == 3
  {
    TablesOfWitness();
    VideoOfWitness();
    assert FirstPat(ps, 1) == 1 && FirstPmt(ps, 1) == 0;
    assert FirstPat(ps, 2) == 1 && FirstPmt(ps, 2) == 0;
    assert FirstPat(ps, 3) == 1 && FirstPmt(ps, 3) == 0;
    assert VideoPid(ps, 2) == VideoPid(ps, 3) == PatPid(PAT_PACKET);
    assert !Completes(ps, 0) && !Completes(ps, 1) && !Completes(ps, 2);
    FirstIsUnique(ps, 3);
  }

  /** It does happen: a complete stream whose last packet comes with the end of the stream gives no header. */
  lemma TailLost()
    ensures HeaderOf(PAT_PACKET + PMT_PACKET + SPS_PACKET, true) == Captured(PAT_PACKET + PMT_PACKET + SPS_PACKET)
    ensures HeaderOf(PAT_PACKET + PMT_PACKET, true) == NoHeader
  {
    var stream := PAT_PACKET + PMT_PACKET;
    PacketsOfWitness();
    var few: PacketList, ps: PacketList := Packets(stream), Packets(stream + SPS_PACKET);
    assert few == [PAT_PACKET, PMT_PACKET] && ps == few + [SPS_PACKET];
    VideoOfWitness();
    CompletedByThird(ps, SPS_PACKET);
    HeaderIsThreePackets(stream + SPS_PACKET, true);
    assert ps[0] + ps[1] + ps[2] == stream + SPS_PACKET;
    FirstOfFewer(few, ps);
    assert FirstToComplete(few) == 2;
    HeaderIsThreePackets(stream, true);
  }
}
