/** Well-formed PAT and PMT sections (sections 2.4.4.3 and 2.4.4.8 of ISO/IEC 13818-1)
    in a packet, and what the parsers of TSHeader make of them. */
module TSSections {
  import opened Basics
  import opened TSHeader

  // ----- A packet that carries a section -----

  /** The parts of a packet: four header bytes, an optional adaptation field, the bytes the pointer
      field skips, the section, and stuffing. */
  datatype Carrier = Carrier(b0: byte, b1: byte, b2: byte, b3: byte, adaptation: Option<seq<byte>>,
                             skipped: seq<byte>, stuffing: seq<byte>)

  ghost predicate Carries(c: Carrier, section: seq<byte>) {
    && (c.adaptation.Some? <==> c.b3 as int / 32 % 2 == 1)
    && (c.adaptation.Some? ==> |c.adaptation.value| < 256)
    && |c.skipped| < 256
    && |Before(c)| + |c.skipped| + |section| + |c.stuffing| == PACKET
  }

  /** Everything up to and including the pointer field. */
  function Before(c: Carrier): seq<byte>
    requires c.adaptation.Some? ==> |c.adaptation.value| < 256
    requires |c.skipped| < 256
  {
    [c.b0, c.b1, c.b2, c.b3]
    + (if c.adaptation.Some? then [|c.adaptation.value|] + c.adaptation.value else [])
    + [|c.skipped|]
  }

  function Packet(c: Carrier, section: seq<byte>): seq<byte>
    requires c.adaptation.Some? ==> |c.adaptation.value| < 256
    requires |c.skipped| < 256
  {
    Before(c) + c.skipped + section + c.stuffing
  }

  /** The parsers find the section where it was put, whatever precedes it. */
  lemma SectionFound(c: Carrier, section: seq<byte>)
    requires Carries(c, section) && section != []
    ensures |Packet(c, section)| == PACKET
    ensures var start := SectionStart(Packet(c, section));
            start.Some? && Packet(c, section)[start.value..] == section + c.stuffing
  {
    var p, b := Packet(c, section), Before(c);
    assert |p| == PACKET;
    assert p[3] == b[3] == c.b3;
    var n := |b| - 1;
    assert p[n] == b[n] == |c.skipped|;
    if c.adaptation.Some? {
      assert p[4] == b[4] == |c.adaptation.value|;
    }
    assert p[n + 1 + |c.skipped|..] == section + c.stuffing;
  }

  // ----- Program association -----

  datatype Program = Program(number: nat, pid: nat, reserved: nat)

  predicate ValidProgram(g: Program) {
    g.number < 0x1_0000 && g.pid < 0x2000 && g.reserved < 8
  }

  function ProgramBytes(g: Program): (r: seq<byte>)
    requires ValidProgram(g)
    ensures |r| == 4
  {
    [g.number / 256, g.number % 256, g.reserved * 32 + g.pid / 256, g.pid % 256]
  }

  function ProgramLoop(gs: seq<Program>): (r: seq<byte>)
    requires forall i | 0 <= i < |gs| :: ValidProgram(gs[i])
    ensures |r| == 4 * |gs|
  {
    if gs == [] then [] else ProgramBytes(gs[0]) + ProgramLoop(gs[1..])
  }

  /** The first program that is not the network program. */
  function FirstProgram(gs: seq<Program>): nat {
    if gs == [] then 0 else if gs[0].number != 0 then gs[0].pid else FirstProgram(gs[1..])
  }

  /** The first eight bytes of a section of the given length: table id, flags and length, and five bytes
      (identifier, version and section numbers). */
  function SectionHead(tableId: byte, flags: nat, length: nat, fixed: seq<byte>): (r: seq<byte>)
    requires flags < 16 && length < 0x1000 && |fixed| == 5
    ensures |r| == 8
  {
    [tableId, flags * 16 + length / 256, length % 256] + fixed
  }

  function PatLength(gs: seq<Program>): nat { 5 + 4 * |gs| + 4 }

  function PatSection(flags: nat, fixed: seq<byte>, gs: seq<Program>, crc: seq<byte>): (r: seq<byte>)
    requires flags < 16 && |fixed| == 5 && |crc| == 4 && PatLength(gs) < 0x1000
    requires forall i | 0 <= i < |gs| :: ValidProgram(gs[i])
    ensures |r| == 3 + PatLength(gs)
  {
    SectionHead(0, flags, PatLength(gs), fixed) + ProgramLoop(gs) + crc
  }

  lemma LengthRead(tableId: byte, flags: nat, length: nat, fixed: seq<byte>, rest: seq<byte>)
    requires flags < 16 && length < 0x1000 && |fixed| == 5 && |rest| >= 4
    ensures SectionLength(SectionHead(tableId, flags, length, fixed) + rest) == length
  {
    var d := SectionHead(tableId, flags, length, fixed) + rest;
    assert d[1] == flags * 16 + length / 256 && d[2] == length % 256;
  }

  lemma ProgramRead(g: Program)
    requires ValidProgram(g)
    ensures var b := ProgramBytes(g);
            Bits16(b[0], b[1]) == g.number && Bits13(b[2], b[3]) == g.pid
  {
  }

  /** The loop over a PAT: from any position, the programs that follow are read in order. */
  lemma {:induction false} ProgramsRead(head: seq<byte>, gs: seq<Program>, rest: seq<byte>)
    requires forall i | 0 <= i < |gs| :: ValidProgram(gs[i])
    ensures ProgramsFrom(head + ProgramLoop(gs) + rest, |head|, |head| + 4 * |gs|) == FirstProgram(gs)
    decreases |gs|
  {
    var d := head + ProgramLoop(gs) + rest;
    if gs != [] {
      ProgramRead(gs[0]);
      var b := ProgramBytes(gs[0]);
      assert d[|head|] == b[0] && d[|head| + 1] == b[1] && d[|head| + 2] == b[2] && d[|head| + 3] == b[3];
      if gs[0].number == 0 {
        assert d == (head + b) + ProgramLoop(gs[1..]) + rest;
        ProgramsRead(head + b, gs[1..], rest);
      }
    }
  }

  /** The PAT parser returns the PMT PID of the first program that is not the network program, 0 if there is none. */
  lemma PatParsed(c: Carrier, flags: nat, fixed: seq<byte>, gs: seq<Program>, crc: seq<byte>)
    requires flags < 16 && |fixed| == 5 && |crc| == 4 && PatLength(gs) < 0x1000
    requires forall i | 0 <= i < |gs| :: ValidProgram(gs[i])
    requires Carries(c, PatSection(flags, fixed, gs, crc))
    ensures |Packet(c, PatSection(flags, fixed, gs, crc))| == PACKET
    ensures PatPid(Packet(c, PatSection(flags, fixed, gs, crc))) == FirstProgram(gs)
    ensures !IsPMT(Packet(c, PatSection(flags, fixed, gs, crc)))
  {
    var section := PatSection(flags, fixed, gs, crc);
    SectionFound(c, section);
    var p := Packet(c, section);
    var data := p[SectionStart(p).value..];
    var head, rest := SectionHead(0, flags, PatLength(gs), fixed), crc + c.stuffing;
    assert data == head + ProgramLoop(gs) + rest;
    assert data == head + (ProgramLoop(gs) + rest);
    LengthRead(0, flags, PatLength(gs), fixed, ProgramLoop(gs) + rest);
    ProgramsRead(head, gs, rest);
    assert data[0] == 0;
  }

  // ----- Program map -----

  datatype Stream = Stream(kind: byte, pid: nat, reserved1: nat, reserved2: nat, info: seq<byte>)

  predicate ValidStream(t: Stream) {
    t.pid < 0x2000 && t.reserved1 < 8 && t.reserved2 < 16 && |t.info| < 0x1000
  }

  function StreamHead(t: Stream): (r: seq<byte>)
    requires ValidStream(t)
    ensures |r| == 5
  {
    [t.kind, t.reserved1 * 32 + t.pid / 256, t.pid % 256, t.reserved2 * 16 + |t.info| / 256, |t.info| % 256]
  }

  function StreamLoop(ts: seq<Stream>): (r: seq<byte>)
    requires forall i | 0 <= i < |ts| :: ValidStream(ts[i])
  {
    if ts == [] then [] else StreamHead(ts[0]) + ts[0].info + StreamLoop(ts[1..])
  }

  /** The first stream of a video type. */
  function FirstVideo(ts: seq<Stream>): nat {
    if ts == [] then 0 else if ts[0].kind in {0x1b, 0x24, 0x02} then ts[0].pid else FirstVideo(ts[1..])
  }

  function PmtLength(info: seq<byte>, ts: seq<Stream>): nat
    requires forall i | 0 <= i < |ts| :: ValidStream(ts[i])
  {
    5 + 4 + |info| + |StreamLoop(ts)| + 4
  }

  /** PCR PID and program info length, between the head of a PMT section and its descriptors. */
  function PmtMiddle(pcr: seq<byte>, reserved: nat, info: seq<byte>): (r: seq<byte>)
    requires |pcr| == 2 && reserved < 16 && |info| < 0x1000
    ensures |r| == 4
  {
    pcr + [reserved * 16 + |info| / 256, |info| % 256]
  }

  function PmtSection(flags: nat, fixed: seq<byte>, pcr: seq<byte>, reserved: nat, info: seq<byte>,
                      ts: seq<Stream>, crc: seq<byte>): (r: seq<byte>)
    requires forall i | 0 <= i < |ts| :: ValidStream(ts[i])
    requires flags < 16 && |fixed| == 5 && |pcr| == 2 && reserved < 16 && |crc| == 4 && PmtLength(info, ts) < 0x1000
    ensures |r| == 3 + PmtLength(info, ts)
  {
    SectionHead(2, flags, PmtLength(info, ts), fixed) + PmtMiddle(pcr, reserved, info) + info + StreamLoop(ts) + crc
  }

  lemma StreamRead(t: Stream)
    requires ValidStream(t)
    ensures var b := StreamHead(t);
            b[0] == t.kind && Bits13(b[1], b[2]) == t.pid && Bits12(b[3], b[4]) == |t.info|
  {
  }

  /** One round of the loop over a PMT. */
  lemma StreamStep(d: seq<byte>, pos: nat, t: Stream, end: int)
    requires ValidStream(t) && pos + 5 <= end <= |d| && d[pos..pos + 5] == StreamHead(t)
    ensures StreamsFrom(d, pos, end) ==
            if IsVideoType(t.kind) then t.pid else StreamsFrom(d, pos + 5 + |t.info|, end)
  {
    var b := StreamHead(t);
    StreamRead(t);
    assert b[0] == d[pos] && b[1] == d[pos + 1] && b[2] == d[pos + 2] && b[3] == d[pos + 3] && b[4] == d[pos + 4];
  }

  /** A stretch of d that starts with a stream: its five bytes, and the stretch after its descriptors. */
  lemma StretchSplits(d: seq<byte>, pos: nat, end: int, a: seq<byte>, b: seq<byte>, c: seq<byte>)
    requires pos <= end <= |d| && d[pos..end] == a + b + c
    ensures pos + |a| + |b| <= end && d[pos..pos + |a|] == a && d[pos + |a| + |b|..end] == c
  {
    var l := d[pos..end];
    assert d[pos..pos + |a|] == l[..|a|] == a;
    assert d[pos + |a| + |b|..end] == l[|a| + |b|..] == c;
  }

  /** The loop over a PMT: from any position, the streams that follow are read in order, descriptors skipped. */
  lemma {:induction false} StreamsRead(d: seq<byte>, pos: nat, end: int, ts: seq<Stream>)
    requires forall i | 0 <= i < |ts| :: ValidStream(ts[i])
    requires pos <= end <= |d| && d[pos..end] == StreamLoop(ts)
    ensures StreamsFrom(d, pos, end) == FirstVideo(ts)
    decreases |ts|
  {
    if ts != [] {
      var t := ts[0];
      StretchSplits(d, pos, end, StreamHead(t), t.info, StreamLoop(ts[1..]));
      StreamStep(d, pos, t, end);
      if !IsVideoType(t.kind) {
        StreamsRead(d, pos + 5 + |t.info|, end, ts[1..]);
      }
    }
  }

  lemma PmtData(c: Carrier, flags: nat, fixed: seq<byte>, pcr: seq<byte>, reserved: nat, info: seq<byte>,
                ts: seq<Stream>, crc: seq<byte>, data: seq<byte>)
    requires forall i | 0 <= i < |ts| :: ValidStream(ts[i])
    requires flags < 16 && |fixed| == 5 && |pcr| == 2 && reserved < 16 && |crc| == 4 && PmtLength(info, ts) < 0x1000
    requires data == PmtSection(flags, fixed, pcr, reserved, info, ts, crc) + c.stuffing
    ensures |data| >= 16 && data[0] == 2
    ensures SectionLength(data) == PmtLength(info, ts)
    ensures Bits12(data[10], data[11]) == |info|
  {
    var head, mid := SectionHead(2, flags, PmtLength(info, ts), fixed), PmtMiddle(pcr, reserved, info);
    var rest := info + StreamLoop(ts) + crc + c.stuffing;
    assert data == head + (mid + rest);
    LengthRead(2, flags, PmtLength(info, ts), fixed, mid + rest);
    InfoLengthRead(pcr, reserved, info);
    assert data[10] == mid[2] && data[11] == mid[3];
  }

  lemma InfoLengthRead(pcr: seq<byte>, reserved: nat, info: seq<byte>)
    requires |pcr| == 2 && reserved < 16 && |info| < 0x1000
    ensures Bits12(PmtMiddle(pcr, reserved, info)[2], PmtMiddle(pcr, reserved, info)[3]) == |info|
  {
  }

  lemma Middle(s: seq<byte>, a: seq<byte>, b: seq<byte>, c: seq<byte>, d: seq<byte>, e: seq<byte>, f: seq<byte>)
    requires s == a + b + c + d + e + f
    ensures s[|a| + |b| + |c|..|a| + |b| + |c| + |d|] == d
  {
  }

  /** The PMT parser recognises the packet and returns the PID of the first stream of a video type, 0 if there is none. */
  lemma PmtParsed(c: Carrier, flags: nat, fixed: seq<byte>, pcr: seq<byte>, reserved: nat, info: seq<byte>,
                  ts: seq<Stream>, crc: seq<byte>)
    requires forall i | 0 <= i < |ts| :: ValidStream(ts[i])
    requires flags < 16 && |fixed| == 5 && |pcr| == 2 && reserved < 16 && |crc| == 4 && PmtLength(info, ts) < 0x1000
    requires Carries(c, PmtSection(flags, fixed, pcr, reserved, info, ts, crc))
    ensures |Packet(c, PmtSection(flags, fixed, pcr, reserved, info, ts, crc))| == PACKET
    ensures PmtPid(Packet(c, PmtSection(flags, fixed, pcr, reserved, info, ts, crc))) == FirstVideo(ts)
    ensures IsPMT(Packet(c, PmtSection(flags, fixed, pcr, reserved, info, ts, crc)))
  {
    var section := PmtSection(flags, fixed, pcr, reserved, info, ts, crc);
    SectionFound(c, section);
    var p := Packet(c, section);
    var data := p[SectionStart(p).value..];
    PmtData(c, flags, fixed, pcr, reserved, info, ts, crc, data);
    var pos, end := 12 + |info|, 12 + |info| + |StreamLoop(ts)|;
    Middle(data, SectionHead(2, flags, PmtLength(info, ts), fixed), PmtMiddle(pcr, reserved, info), info,
           StreamLoop(ts), crc, c.stuffing);
    StreamsRead(data, pos, end, ts);
  }
}
