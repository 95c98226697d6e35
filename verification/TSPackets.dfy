/** The parts of a transport stream packet (section 2.4.3.2 of ISO/IEC 13818-1), and what the capture makes of
    a packet that is put together from them. */
module TSPackets {
  import opened Basics
  import opened TSHeader
  import opened TSSections

  /** The fields of a packet header, with the adaptation field if there is one. */
  datatype Fields = Fields(error: bool, pusi: bool, priority: bool, pid: nat, scrambling: nat,
                           adaptation: Option<seq<byte>>, payload: bool, counter: nat)

  predicate Valid(f: Fields) {
    f.pid < 0x2000 && f.scrambling < 4 && f.counter < 16 && (f.adaptation.Some? ==> |f.adaptation.value| < 256)
  }

  function Bit(b: bool, weight: nat): nat {
    if b then weight else 0
  }

  /** The second and the fourth byte of the packet. */
  function Byte1(f: Fields): byte
    requires Valid(f)
  {
    Bit(f.error, 128) + Bit(f.pusi, 64) + Bit(f.priority, 32) + f.pid / 256
  }

  function Byte3(f: Fields): byte
    requires Valid(f)
  {
    f.scrambling * 64 + Bit(f.adaptation.Some?, 32) + Bit(f.payload, 16) + f.counter
  }

  function HeaderBytes(f: Fields): (r: seq<byte>)
    requires Valid(f)
    ensures |r| == 4
  {
    [0x47, Byte1(f), f.pid % 256, Byte3(f)]
  }

  function AdaptationBytes(f: Fields): seq<byte>
    requires Valid(f)
  {
    if f.adaptation.Some? then [|f.adaptation.value|] + f.adaptation.value else []
  }

  /** A packet with these fields and this payload. */
  function PacketOf(f: Fields, payload: seq<byte>): seq<byte>
    requires Valid(f)
  {
    HeaderBytes(f) + AdaptationBytes(f) + payload
  }

  lemma BitsRead(f: Fields)
    requires Valid(f)
    ensures Byte1(f) as int / 64 % 2 == Bit(f.pusi, 1) && Byte1(f) as int % 32 == f.pid / 256
    ensures Byte3(f) as int / 32 % 2 == Bit(f.adaptation.Some?, 1)
  {
  }

  /** Every field of the header that the capture looks at is read as it was put in. */
  lemma FieldsRead(f: Fields, payload: seq<byte>)
    requires Valid(f) && |PacketOf(f, payload)| == PACKET
    ensures var p := PacketOf(f, payload);
            p[0] == 0x47 && Pid(p) == f.pid && Pusi(p) == f.pusi && HasAdaptation(p) == f.adaptation.Some?
  {
    var p, h := PacketOf(f, payload), HeaderBytes(f);
    BitsRead(f);
    assert p[0] == h[0] && p[1] == h[1] && p[2] == h[2] && p[3] == h[3];
  }

  /** The payload is found where it was put, behind any adaptation field that fits. */
  lemma PayloadFound(f: Fields, payload: seq<byte>)
    requires Valid(f) && |PacketOf(f, payload)| == PACKET
    ensures TsPayload(PacketOf(f, payload)) == payload
  {
    var p := PacketOf(f, payload);
    FieldsRead(f, payload);
    var start := |HeaderBytes(f)| + |AdaptationBytes(f)|;
    assert p[start..] == payload;
    if f.adaptation.Some? {
      assert p[4] == AdaptationBytes(f)[0];
    }
  }

  /** A packet is taken for one with a sequence parameter set exactly if its payload holds a start code 00 00 01 that is
      followed by a byte whose low five bits are 7. */
  lemma SPSFoundIff(f: Fields, x: seq<byte>)
    requires Valid(f) && |PacketOf(f, x)| == PACKET
    ensures HasSPS(PacketOf(f, x)) <==>
            exists i :: 0 <= i && i + 3 < |x| && x[i] == 0 && x[i + 1] == 0 && x[i + 2] == 1 && x[i + 3] % 32 == 7
  {
    PayloadFound(f, x);
    SPSInPayload(PacketOf(f, x));
    if i :| 0 <= i && i + 3 < |x| && x[i] == 0 && x[i + 1] == 0 && x[i + 2] == 1 && x[i + 3] % 32 == 7 {
      assert NalAt(x, i, 7);
    }
    if i :| NalAt(x, i, 7) {
      assert 0 <= i && i + 3 < |x| && x[i] == 0 && x[i + 1] == 0 && x[i + 2] == 1 && x[i + 3] % 32 == 7;
    }
  }

  /** Which packets count as the PAT and as the PMT: a unit start on PID 0, and a unit start on any other PID but
      the null packets' with a section of table id 2, behind any adaptation field and pointer that fit. */
  lemma TablePackets(f: Fields, skipped: seq<byte>, section: seq<byte>, stuffing: seq<byte>)
    requires Valid(f) && |skipped| < 256 && section != []
    requires |PacketOf(f, [|skipped|] + skipped + section + stuffing)| == PACKET
    ensures var p := PacketOf(f, [|skipped|] + skipped + section + stuffing);
            && (IsPatPacket(p) <==> f.pusi && f.pid == 0)
            && (IsPmtPacket(p) <==> f.pusi && f.pid != 0 && f.pid != 0x1fff && section[0] == 2)
  {
    var h := HeaderBytes(f);
    var c := Carrier(h[0], h[1], h[2], h[3], f.adaptation, skipped, stuffing);
    BitsRead(f);
    FieldsRead(f, [|skipped|] + skipped + section + stuffing);
    assert Packet(c, section) == PacketOf(f, [|skipped|] + skipped + section + stuffing);
    SectionFound(c, section);
    var p := Packet(c, section);
    assert p[SectionStart(p).value] == (section + stuffing)[0];
  }

  /** A video start with an adaptation field, on the PID of the PMT of PMT_PACKET. */
  const RANDOM_ACCESS := Fields(false, true, false, 0x101, 0, Some([0x40]), true, 0)

  function AfterStart(): (x: seq<byte>)
    ensures |x| == PACKET - 6 && [0, 0, 1, 0x67] <= x
  {
    [0, 0, 1, 0x67] + seq(PACKET - 10, _ => 0)
  }

  /** A stream whose video starts behind an adaptation field gives its header. */
  lemma CapturedBehindAdaptation()
    ensures |PacketOf(RANDOM_ACCESS, AfterStart())| == PACKET
    ensures var p := PacketOf(RANDOM_ACCESS, AfterStart());
            HeaderOf(PAT_PACKET + PMT_PACKET + p, true) == Captured(PAT_PACKET + PMT_PACKET + p)
  {
    var p, x := PacketOf(RANDOM_ACCESS, AfterStart()), AfterStart();
    FieldsRead(RANDOM_ACCESS, x);
    assert x[0] == 0 && x[1] == 0 && x[2] == 1 && x[3] == 0x67;
    SPSFoundIff(RANDOM_ACCESS, x);
    HeaderOfThree(p);
  }
}
