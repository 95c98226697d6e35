/** The Protocol Buffers wire format: the decoder is the specification (sections
    "Base 128 Varints", "Length-Delimited Records" and "Last One Wins" of the
    Protocol Buffers encoding guide), the writers follow pkg/proto/write.go. */
module Wire {
  import opened Basics

  const TWO32: int := 0x1_0000_0000
  const TWO64: int := 0x1_0000_0000_0000_0000
  const MAX_FIELD: int := 0x2000_0000

  /** Go's conversion to int32 and int64: keep the low bits, read as two's complement. */
  function ToInt32(x: int): (r: int)
    ensures Fits32(r)
  {
    var low := x % TWO32;
    if low < 0x8000_0000 then low else low - TWO32
  }

  function ToInt64(x: int): (r: int)
    ensures Fits64(r)
  {
    var low := x % TWO64;
    if low < 0x8000_0000_0000_0000 then low else low - TWO64
  }

  predicate Fits32(v: int) { -0x8000_0000 <= v < 0x8000_0000 }
  predicate Fits64(v: int) { -0x8000_0000_0000_0000 <= v < 0x8000_0000_0000_0000 }

  // ----- Varints -----

  function Varint(v: nat): (r: seq<byte>)
    ensures r != []
  {
    if v < 0x80 then [v] else [v % 0x80 + 0x80] + Varint(v / 0x80)
  }

  /** A varint of at most k bytes at the start of s: its value and what follows it. */
  function ReadVarint(s: seq<byte>, k: nat): (r: Option<(nat, seq<byte>)>)
    ensures r.Some? ==> |r.value.1| < |s|
  {
    if k == 0 || s == [] then None
    else if s[0] < 0x80 then Some((s[0], s[1..]))
    else match ReadVarint(s[1..], k - 1)
      case None => None
      case Some((v, rest)) => Some((s[0] - 0x80 + 0x80 * v, rest))
  }

  /** Ten bytes at most, and the value must fit 64 bits. */
  function ParseVarint(s: seq<byte>): (r: Option<(nat, seq<byte>)>)
    ensures r.Some? ==> r.value.0 < TWO64 && |r.value.1| < |s|
  {
    var r := ReadVarint(s, 10);
    if r.Some? && r.value.0 < TWO64 then r else None
  }

  function Pow128(k: nat): (r: nat)
    ensures r > 0
  {
    if k == 0 then 1 else 0x80 * Pow128(k - 1)
  }

  lemma {:induction false} ReadVarintOfVarint(v: nat, rest: seq<byte>, k: nat)
    requires v < Pow128(k) && k > 0
    ensures ReadVarint(Varint(v) + rest, k) == Some((v, rest))
    decreases k
  {
    var s := Varint(v) + rest;
    if v < 0x80 {
      assert s[1..] == rest;
    } else {
      ReadVarintOfVarint(v / 0x80, rest, k - 1);
      assert s[1..] == Varint(v / 0x80) + rest;
    }
  }

  /** Ten base-128 digits are enough for 64 bits. */
  lemma TenDigits()
    ensures Pow128(10) > TWO64
  {
    assert Pow128(2) == 0x4000;
    assert Pow128(4) == 0x4000 * Pow128(2);
    assert Pow128(6) == 0x4000 * Pow128(4);
    assert Pow128(8) == 0x4000 * Pow128(6);
    assert Pow128(10) == 0x4000 * Pow128(8);
  }

  /** Decoding undoes encoding for every 64-bit value, whatever follows. */
  lemma VarintRoundTrip(v: nat, rest: seq<byte>)
    requires v < TWO64
    ensures ParseVarint(Varint(v) + rest) == Some((v, rest))
  {
    TenDigits();
    ReadVarintOfVarint(v, rest, 10);
  }

  lemma {:induction false} ReadVarintMore(a: seq<byte>, b: seq<byte>, k: nat)
    requires ReadVarint(a, k).Some?
    ensures ReadVarint(a + b, k) == Some((ReadVarint(a, k).value.0, ReadVarint(a, k).value.1 + b))
    decreases k
  {
    assert (a + b)[1..] == a[1..] + b;
    if a[0] >= 0x80 {
      ReadVarintMore(a[1..], b, k - 1);
    }
  }

  lemma {:induction false} VarintLength(v: nat, k: nat)
    requires v < Pow128(k) && k > 0
    ensures |Varint(v)| <= k
    decreases k
  {
    if v >= 0x80 {
      VarintLength(v / 0x80, k - 1);
    }
  }

  // ----- Records -----

  datatype Record =
    | VarintRec(field: nat, value: nat)
    | BytesRec(field: nat, data: seq<byte>)
    | Fixed64Rec(field: nat, data: seq<byte>)
    | Fixed32Rec(field: nat, data: seq<byte>)

  /** What follows a tag: the payload of a record of the given field and wire type. */
  function ParsePayload(field: nat, wire: nat, s: seq<byte>): (r: Option<(Record, seq<byte>)>)
    ensures r.Some? ==> |r.value.1| <= |s|
  {
    match wire
    case 0 =>
      (match ParseVarint(s)
       case None => None
       case Some((v, rest)) => Some((VarintRec(field, v), rest)))
    case 1 => if |s| < 8 then None else Some((Fixed64Rec(field, s[..8]), s[8..]))
    case 2 =>
      (match ParseVarint(s)
       case None => None
       case Some((n, rest)) =>
         if |rest| < n then None else Some((BytesRec(field, rest[..n]), rest[n..])))
    case 5 => if |s| < 4 then None else Some((Fixed32Rec(field, s[..4]), s[4..]))
    case _ => None
  }

  function ParseRecord(s: seq<byte>): (r: Option<(Record, seq<byte>)>)
    ensures r.Some? ==> |r.value.1| < |s|
  {
    match ParseVarint(s)
    case None => None
    case Some((tag, rest)) =>
      if 1 <= tag / 8 < MAX_FIELD then ParsePayload(tag / 8, tag % 8, rest) else None
  }

  /** A whole message as its records, or None if it is malformed. */
  function Parse(s: seq<byte>): (r: Option<seq<Record>>)
    decreases |s|
  {
    if s == [] then Some([])
    else match ParseRecord(s)
      case None => None
      case Some((rec, rest)) =>
        match Parse(rest)
        case None => None
        case Some(recs) => Some([rec] + recs)
  }

  lemma ParsePayloadMore(field: nat, wire: nat, a: seq<byte>, b: seq<byte>)
    requires ParsePayload(field, wire, a).Some?
    ensures ParsePayload(field, wire, a + b) ==
            Some((ParsePayload(field, wire, a).value.0, ParsePayload(field, wire, a).value.1 + b))
  {
    if wire == 0 {
      ReadVarintMore(a, b, 10);
    } else if wire == 2 {
      ReadVarintMore(a, b, 10);
      var (n, rest) := ParseVarint(a).value;
      assert (rest + b)[..n] == rest[..n];
      assert (rest + b)[n..] == rest[n..] + b;
    } else {
      var n := if wire == 1 then 8 else 4;
      assert (a + b)[..n] == a[..n];
      assert (a + b)[n..] == a[n..] + b;
    }
  }

  lemma ParseRecordMore(a: seq<byte>, b: seq<byte>)
    requires ParseRecord(a).Some?
    ensures ParseRecord(a + b) == Some((ParseRecord(a).value.0, ParseRecord(a).value.1 + b))
  {
    ReadVarintMore(a, b, 10);
    var (tag, rest) := ParseVarint(a).value;
    ParsePayloadMore(tag / 8, tag % 8, rest, b);
  }

  lemma ParseFirst(s: seq<byte>, rec: Record, rest: seq<byte>)
    requires ParseRecord(s) == Some((rec, rest))
    ensures Parse(s) == if Parse(rest).None? then None else Some([rec] + Parse(rest).value)
    ensures rest == [] ==> Parse(s) == Some([rec])
  {
    assert [rec] + [] == [rec];
  }

  /** Appending b to a well-formed message appends b's records, and fails only if b is malformed. */
  lemma {:induction false} ParseAppend(a: seq<byte>, b: seq<byte>)
    requires Parse(a).Some?
    ensures Parse(a + b) == if Parse(b).None? then None else Some(Parse(a).value + Parse(b).value)
    decreases |a|
  {
    if a == [] {
      assert a + b == b;
      assert Parse(b).Some? ==> [] + Parse(b).value == Parse(b).value;
    } else {
      var (rec, rest) := ParseRecord(a).value;
      ParseFirst(a, rec, rest);
      ParseAppend(rest, b);
      ParseRecordMore(a, b);
      ParseFirst(a + b, rec, rest + b);
      if Parse(b).Some? {
        Assoc([rec], Parse(rest).value, Parse(b).value);
      }
    }
  }

  // ----- What a reader sees of a field -----

  predicate Hits(r: Record, field: nat, wire: nat) {
    && r.field == field
    && (wire == 0 ==> r.VarintRec?) && (wire != 0 ==> r.BytesRec?)
  }

  /** "Last One Wins": the last record of a field with the wire type its declaration asks for. */
  function Last(rs: seq<Record>, field: nat, wire: nat): (r: Option<Record>)
    ensures r.Some? ==> r.value in rs && Hits(r.value, field, wire)
  {
    if rs == [] then None
    else if Hits(rs[|rs| - 1], field, wire) then Some(rs[|rs| - 1])
    else Last(rs[..|rs| - 1], field, wire)
  }

  /** All values of a repeated length-delimited field, in order. */
  function All(rs: seq<Record>, field: nat): (r: seq<seq<byte>>)
  {
    if rs == [] then []
    else
      var front, last := All(rs[..|rs| - 1], field), rs[|rs| - 1];
      if Hits(last, field, 2) then front + [last.data] else front
  }

  lemma {:induction false} LastAppend(a: seq<Record>, b: seq<Record>, field: nat, wire: nat)
    ensures Last(a + b, field, wire) ==
            if Last(b, field, wire).Some? then Last(b, field, wire) else Last(a, field, wire)
    decreases |b|
  {
    if b == [] {
      assert a + b == a;
    } else {
      var front := b[..|b| - 1];
      assert (a + b)[..|a + b| - 1] == a + front;
      LastAppend(a, front, field, wire);
    }
  }

  lemma {:induction false} AllAppend(a: seq<Record>, b: seq<Record>, field: nat)
    ensures All(a + b, field) == All(a, field) + All(b, field)
    decreases |b|
  {
    if b == [] {
      assert a + b == a;
      assert All(a, field) + [] == All(a, field);
    } else {
      var front := b[..|b| - 1];
      assert (a + b)[..|a + b| - 1] == a + front;
      AllAppend(a, front, field);
    }
  }

  function Int32At(rs: seq<Record>, field: nat): int {
    match Last(rs, field, 0) case None => 0 case Some(r) => ToInt32(r.value)
  }

  function Int64At(rs: seq<Record>, field: nat): int {
    match Last(rs, field, 0) case None => 0 case Some(r) => ToInt64(r.value)
  }

  function BoolAt(rs: seq<Record>, field: nat): bool {
    match Last(rs, field, 0) case None => false case Some(r) => r.value != 0
  }

  function BytesAt(rs: seq<Record>, field: nat): seq<byte> {
    match Last(rs, field, 2) case None => [] case Some(r) => r.data
  }

  // ----- Writers -----

  /** A field as handed to a writer: a signed number, a flag, or bytes (a string or an encoded message). */
  datatype Field =
    | IntField(num: nat, v: int)
    | BoolField(num: nat, flag: bool)
    | BytesField(num: nat, data: seq<byte>)

  /** Field numbers the format allows, numbers that fit int64, and lengths that fit 64 bits. */
  ghost predicate Writable(f: Field) {
    && 1 <= f.num < MAX_FIELD
    && (f.IntField? ==> Fits64(f.v))
    && (f.BytesField? ==> |f.data| < TWO64)
  }

  function Tag(num: nat, wire: nat): seq<byte> {
    Varint(num * 8 + wire)
  }

  /** The bytes a writer appends for a field: nothing at all for a default value. */
  function FieldBytes(f: Field): seq<byte> {
    match f
    case IntField(n, v) => if v == 0 then [] else Tag(n, 0) + Varint(v % TWO64)
    case BoolField(n, b) => if !b then [] else Tag(n, 0) + [1]
    case BytesField(n, d) => if d == [] then [] else Tag(n, 2) + Varint(|d|) + d
  }

  function Encode(fs: seq<Field>): seq<byte> {
    if fs == [] then [] else Encode(fs[..|fs| - 1]) + FieldBytes(fs[|fs| - 1])
  }

  function FieldRecords(f: Field): seq<Record> {
    match f
    case IntField(n, v) => if v == 0 then [] else [VarintRec(n, v % TWO64)]
    case BoolField(n, b) => if !b then [] else [VarintRec(n, 1)]
    case BytesField(n, d) => if d == [] then [] else [BytesRec(n, d)]
  }

  function Records(fs: seq<Field>): seq<Record> {
    if fs == [] then [] else Records(fs[..|fs| - 1]) + FieldRecords(fs[|fs| - 1])
  }

  lemma TagRoundTrip(num: nat, wire: nat, rest: seq<byte>)
    requires 1 <= num < MAX_FIELD && wire < 8
    ensures ParseRecord(Tag(num, wire) + rest) == ParsePayload(num, wire, rest)
  {
    VarintRoundTrip(num * 8 + wire, rest);
    assert (num * 8 + wire) / 8 == num && (num * 8 + wire) % 8 == wire;
  }

  lemma ParseField(f: Field)
    requires Writable(f)
    ensures Parse(FieldBytes(f)) == Some(FieldRecords(f))
  {
    var s := FieldBytes(f);
    match f
    case IntField(n, v) =>
      if v != 0 {
        VarintRoundTrip(v % TWO64, []);
        assert Varint(v % TWO64) + [] == Varint(v % TWO64);
        TagRoundTrip(n, 0, Varint(v % TWO64));
        ParseFirst(s, VarintRec(n, v % TWO64), []);
      }
    case BoolField(n, b) =>
      if b {
        VarintRoundTrip(1, []);
        assert Varint(1) + [] == [1];
        TagRoundTrip(n, 0, [1]);
        ParseFirst(s, VarintRec(n, 1), []);
      }
    case BytesField(n, d) =>
      if d != [] {
        Assoc(Tag(n, 2), Varint(|d|), d);
        VarintRoundTrip(|d|, d);
        assert d[..|d|] == d && d[|d|..] == [];
        TagRoundTrip(n, 2, Varint(|d|) + d);
        ParseFirst(s, BytesRec(n, d), []);
      }
  }

  /** Whatever the writers append parses back to exactly one record per non-default field. */
  lemma {:induction false} ParseEncode(fs: seq<Field>)
    requires forall i | 0 <= i < |fs| :: Writable(fs[i])
    ensures Parse(Encode(fs)) == Some(Records(fs))
  {
    if fs != [] {
      var front := fs[..|fs| - 1];
      ParseEncode(front);
      ParseField(fs[|fs| - 1]);
      ParseAppend(Encode(front), FieldBytes(fs[|fs| - 1]));
    }
  }

  lemma {:induction false} EncodeAppend(a: seq<Field>, b: seq<Field>)
    ensures Encode(a + b) == Encode(a) + Encode(b)
    decreases |b|
  {
    if b == [] {
      assert a + b == a;
      assert Encode(a) + [] == Encode(a);
    } else {
      var front := b[..|b| - 1];
      assert (a + b)[..|a + b| - 1] == a + front;
      EncodeAppend(a, front);
      Assoc(Encode(a), Encode(front), FieldBytes(b[|b| - 1]));
    }
  }

  lemma {:induction false} RecordsAppend(a: seq<Field>, b: seq<Field>)
    ensures Records(a + b) == Records(a) + Records(b)
    decreases |b|
  {
    if b == [] {
      assert a + b == a;
      assert Records(a) + [] == Records(a);
    } else {
      var front := b[..|b| - 1];
      assert (a + b)[..|a + b| - 1] == a + front;
      RecordsAppend(a, front);
      Assoc(Records(a), Records(front), FieldRecords(b[|b| - 1]));
    }
  }

  /** The writers never put down an explicit default: what a reader finds is not a default value. */
  lemma {:induction false} LastIsWritten(fs: seq<Field>, num: nat, wire: nat)
    requires forall i | 0 <= i < |fs| :: Writable(fs[i])
    ensures var l := Last(Records(fs), num, wire);
            l.Some? ==>
              && (l.value.VarintRec? ==> 0 < l.value.value < TWO64)
              && (l.value.BytesRec? ==> l.value.data != [])
              && (l.value.VarintRec? && (forall i | 0 <= i < |fs| && fs[i].IntField? && fs[i].num == num :: Fits32(fs[i].v))
                  ==> ToInt32(l.value.value) != 0)
  {
    if fs != [] {
      var front, f := fs[..|fs| - 1], fs[|fs| - 1];
      LastIsWritten(front, num, wire);
      LastAppend(Records(front), FieldRecords(f), num, wire);
      if Last(FieldRecords(f), num, wire).Some? {
        OneIsWritten(f, num, wire);
      } else if forall i | 0 <= i < |fs| && fs[i].IntField? && fs[i].num == num :: Fits32(fs[i].v) {
        assert forall i | 0 <= i < |front| && front[i].IntField? && front[i].num == num :: fs[i] == front[i];
      }
    }
  }

  lemma OneIsWritten(f: Field, num: nat, wire: nat)
    requires Writable(f) && Last(FieldRecords(f), num, wire).Some?
    ensures var r := Last(FieldRecords(f), num, wire).value;
            && r.field == f.num == num
            && (r.VarintRec? ==> 0 < r.value < TWO64 && (f.IntField? && Fits32(f.v) ==> ToInt32(r.value) != 0))
            && (f.BoolField? ==> r.VarintRec? && ToInt32(r.value) != 0)
            && (r.BytesRec? ==> r.data != [])
  {
    var rs := FieldRecords(f);
    assert |rs| == 1 && Last(rs, num, wire) == Some(rs[0]) by {
      assert rs != [] ==> rs[..|rs| - 1] == [];
    }
    if f.IntField? {
      ReadBackInt(f.v);
    }
  }

  /** The one field with its number decides what a reader finds under that number. */
  lemma {:induction false} LastOfOnly(fs: seq<Field>, i: nat, wire: nat)
    requires i < |fs| && forall j | 0 <= j < |fs| && j != i :: fs[j].num != fs[i].num
    ensures Last(Records(fs), fs[i].num, wire) == Last(FieldRecords(fs[i]), fs[i].num, wire)
  {
    var front, f := fs[..|fs| - 1], fs[|fs| - 1];
    LastAppend(Records(front), FieldRecords(f), fs[i].num, wire);
    if i == |fs| - 1 {
      LastOfOther(front, f.num, wire);
    } else {
      LastOfOnly(front, i, wire);
    }
  }

  lemma {:induction false} LastOfOther(fs: seq<Field>, num: nat, wire: nat)
    requires forall j | 0 <= j < |fs| :: fs[j].num != num
    ensures Last(Records(fs), num, wire) == None
  {
    if fs != [] {
      LastOfOther(fs[..|fs| - 1], num, wire);
      LastAppend(Records(fs[..|fs| - 1]), FieldRecords(fs[|fs| - 1]), num, wire);
    }
  }

  lemma {:induction false} AllOfOther(fs: seq<Field>, num: nat)
    requires forall j | 0 <= j < |fs| :: fs[j].num != num
    ensures All(Records(fs), num) == []
  {
    if fs != [] {
      AllOfOther(fs[..|fs| - 1], num);
      AllAppend(Records(fs[..|fs| - 1]), FieldRecords(fs[|fs| - 1]), num);
    }
  }

  /** The conversion to 32 bits keeps the low bits and takes the highest one as the sign. */
  lemma Int32Is(x: int)
    ensures -0x8000_0000 <= ToInt32(x) < 0x8000_0000 && (x - ToInt32(x)) % 0x1_0000_0000 == 0
  {
  }

  lemma ReadBackInt(v: int)
    ensures Fits32(v) ==> ToInt32(v % TWO64) == v
    ensures Fits64(v) ==> ToInt64(v % TWO64) == v
  {
  }

  // ----- The append methods -----

  method AppendVarint(b: seq<byte>, v: nat) returns (r: seq<byte>)
    requires v < TWO64
    ensures r == b + Varint(v)
  {
    r := b;
    var u := v;
    while u >= 0x80
      invariant r + Varint(u) == b + Varint(v)
    {
      ghost var before := r;
      r := r + [u % 0x80 + 0x80];
      assert r + Varint(u / 0x80) == before + Varint(u);
      u := u / 0x80;
    }
    r := r + [u];
  }

  method AppendTag(b: seq<byte>, num: nat, wire: nat) returns (r: seq<byte>)
    requires 1 <= num < MAX_FIELD && wire < 8
    ensures r == b + Tag(num, wire)
  {
    r := AppendVarint(b, num * 8 + wire);
  }

  /** appendInt32 and appendInt64: the number is sign-extended to 64 bits. */
  method AppendInt(b: seq<byte>, num: nat, v: int) returns (r: seq<byte>)
    requires 1 <= num < MAX_FIELD && Fits64(v)
    ensures r == b + FieldBytes(IntField(num, v))
  {
    if v == 0 { return b; }
    r := AppendTag(b, num, 0);
    r := AppendVarint(r, v % TWO64);
    assert r == b + (Tag(num, 0) + Varint(v % TWO64));
  }

  method AppendBool(b: seq<byte>, num: nat, v: bool) returns (r: seq<byte>)
    requires 1 <= num < MAX_FIELD
    ensures r == b + FieldBytes(BoolField(num, v))
  {
    if !v { return b; }
    r := AppendTag(b, num, 0);
    r := r + [1];
  }

  /** appendString and appendBytes. */
  method AppendBytes(b: seq<byte>, num: nat, data: seq<byte>) returns (r: seq<byte>)
    requires 1 <= num < MAX_FIELD && |data| < TWO64
    ensures r == b + FieldBytes(BytesField(num, data))
  {
    if |data| == 0 { return b; }
    r := AppendTag(b, num, 2);
    r := AppendVarint(r, |data|);
    r := r + data;
    assert r == b + (Tag(num, 2) + Varint(|data|) + data);
  }
}
