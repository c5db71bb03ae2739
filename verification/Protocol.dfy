/** Fixed 32-byte records over an arbitrarily chopped byte stream
    (scripts/guardian/protocol.rs). */
module Protocol {
  type Byte = b: int | 0 <= b < 256

  datatype Result<T> = Ok(value: T) | Err

  const FRAME_BYTES: nat := 32
  const QUEUE_RECORDS: nat := 8
  const VERSION: nat := 1
  /** The four bytes PTGR. */
  const MAGIC: seq<Byte> := [80, 84, 71, 82]

  datatype Kind =
    | Hello | Started | Admitted | WorkloadExit | StartFailed | Fault | Retiring
    | Terminate | Kill | Release | Finish | Abort | Successor | Execute | SignalApplied | Escalated

  function Code(kind: Kind): (c: nat)
    ensures 1 <= c <= 18
  {
    match kind
    case Hello => 1 case Started => 2 case Admitted => 3 case WorkloadExit => 4 case StartFailed => 5
    case Fault => 6 case Retiring => 7 case Terminate => 10 case Kill => 11 case Release => 12
    case Finish => 13 case Abort => 14 case Successor => 15 case Execute => 16 case SignalApplied => 17
    case Escalated => 18
  }

  function DecodeKind(c: nat): Result<Kind> {
    match c
    case 1 => Ok(Hello) case 2 => Ok(Started) case 3 => Ok(Admitted) case 4 => Ok(WorkloadExit)
    case 5 => Ok(StartFailed) case 6 => Ok(Fault) case 7 => Ok(Retiring) case 10 => Ok(Terminate)
    case 11 => Ok(Kill) case 12 => Ok(Release) case 13 => Ok(Finish) case 14 => Ok(Abort)
    case 15 => Ok(Successor) case 16 => Ok(Execute) case 17 => Ok(SignalApplied) case 18 => Ok(Escalated)
    case _ => Err
  }

  lemma KindRoundTrip(kind: Kind, c: nat)
    ensures DecodeKind(c) == Ok(kind) <==> c == Code(kind)
  {
  }

  type Int32 = v: int | -0x8000_0000 <= v < 0x8000_0000
  type Word64 = v: int | 0 <= v < 0x1_0000_0000_0000_0000

  datatype Frame = Frame(kind: Kind, generation: Word64, values: (Int32, Int32, Int32, Int32))

  // ----- little-endian numbers

  function Power256(w: nat): (p: nat)
    ensures p > 0
  {
    if w == 0 then 1 else 256 * Power256(w - 1)
  }

  function ToLe(n: nat, w: nat): (b: seq<Byte>)
    ensures |b| == w
  {
    if w == 0 then [] else [n % 256] + ToLe(n / 256, w - 1)
  }

  function FromLe(b: seq<Byte>): (n: nat)
    ensures n < Power256(|b|)
  {
    if b == [] then 0 else b[0] + 256 * FromLe(b[1..])
  }

  lemma {:induction false} FromToLe(n: nat, w: nat)
    requires n < Power256(w)
    ensures FromLe(ToLe(n, w)) == n
  {
    if w == 0 {
    } else {
      FromToLe(n / 256, w - 1);
    }
  }

  lemma {:induction false} ToFromLe(b: seq<Byte>)
    ensures ToLe(FromLe(b), |b|) == b
  {
    if b == [] {
    } else {
      ToFromLe(b[1..]);
      assert FromLe(b) % 256 == b[0] && FromLe(b) / 256 == FromLe(b[1..]);
    }
  }

  lemma Powers()
    ensures Power256(2) == 0x1_0000 && Power256(4) == 0x1_0000_0000 && Power256(8) == 0x1_0000_0000_0000_0000
  {
    assert Power256(1) == 256;
    assert Power256(3) == 0x100_0000;
    assert Power256(5) == 0x100_0000_0000;
    assert Power256(6) == 0x1_0000_0000_0000;
    assert Power256(7) == 0x100_0000_0000_0000;
  }

  /** Two's complement. */
  function Unsigned(v: Int32): (u: nat)
    ensures u < 0x1_0000_0000
  {
    if v < 0 then v + 0x1_0000_0000 else v
  }

  function Signed(u: nat): Int32
    requires u < 0x1_0000_0000
  {
    if u >= 0x8000_0000 then u - 0x1_0000_0000 else u
  }

  function ValueAt(b: seq<Byte>): Int32
    requires |b| == 4
  {
    Powers();
    Signed(FromLe(b))
  }

  lemma ValueRoundTrip(v: Int32, b: seq<Byte>)
    requires |b| == 4
    ensures ValueAt(b) == v <==> b == ToLe(Unsigned(v), 4)
  {
    Powers();
    FromToLe(Unsigned(v), 4);
    ToFromLe(b);
  }

  // ----- records

  function Encode(f: Frame): (b: seq<Byte>)
    ensures |b| == FRAME_BYTES
  {
    MAGIC + ToLe(VERSION, 2) + ToLe(Code(f.kind), 2) + ToLe(f.generation, 8)
    + ToLe(Unsigned(f.values.0), 4) + ToLe(Unsigned(f.values.1), 4)
    + ToLe(Unsigned(f.values.2), 4) + ToLe(Unsigned(f.values.3), 4)
  }

  function Decode(b: seq<Byte>, generation: Word64): Result<Frame>
    requires |b| == FRAME_BYTES
  {
    if b[..4] != MAGIC || b[4..6] != ToLe(VERSION, 2) || b[8..16] != ToLe(generation, 8) then Err
    else
      match DecodeKind(FromLe(b[6..8]))
      case Err => Err
      case Ok(kind) =>
        Ok(Frame(kind, generation, (ValueAt(b[16..20]), ValueAt(b[20..24]), ValueAt(b[24..28]), ValueAt(b[28..32]))))
  }

  /** The fields of a record, cut back out of it. */
  lemma EncodedFields(f: Frame)
    ensures Encode(f)[..4] == MAGIC && Encode(f)[4..6] == ToLe(VERSION, 2)
    ensures Encode(f)[6..8] == ToLe(Code(f.kind), 2) && Encode(f)[8..16] == ToLe(f.generation, 8)
    ensures Encode(f)[16..20] == ToLe(Unsigned(f.values.0), 4) && Encode(f)[20..24] == ToLe(Unsigned(f.values.1), 4)
    ensures Encode(f)[24..28] == ToLe(Unsigned(f.values.2), 4) && Encode(f)[28..32] == ToLe(Unsigned(f.values.3), 4)
  {
    hide ToLe, Code, Unsigned;
  }

  lemma FieldsDetermine(b: seq<Byte>, f: Frame)
    requires |b| == FRAME_BYTES
    requires b[..4] == MAGIC && b[4..6] == ToLe(VERSION, 2)
    requires b[6..8] == ToLe(Code(f.kind), 2) && b[8..16] == ToLe(f.generation, 8)
    requires b[16..20] == ToLe(Unsigned(f.values.0), 4) && b[20..24] == ToLe(Unsigned(f.values.1), 4)
    requires b[24..28] == ToLe(Unsigned(f.values.2), 4) && b[28..32] == ToLe(Unsigned(f.values.3), 4)
    ensures b == Encode(f)
  {
    hide ToLe, Code, Unsigned;
    assert b == b[..4] + b[4..6] + b[6..8] + b[8..16] + b[16..20] + b[20..24] + b[24..28] + b[28..32];
  }

  lemma KindField(kind: Kind, b: seq<Byte>)
    requires |b| == 2
    ensures DecodeKind(FromLe(b)) == Ok(kind) <==> b == ToLe(Code(kind), 2)
  {
    Powers();
    FromToLe(Code(kind), 2);
    ToFromLe(b);
    KindRoundTrip(kind, FromLe(b));
  }

  /** A record decodes to a frame exactly when it is that frame's encoding, for this generation. */
  lemma DecodeIffEncoded(b: seq<Byte>, generation: Word64, f: Frame)
    requires |b| == FRAME_BYTES
    ensures Decode(b, generation) == Ok(f) <==> b == Encode(f) && f.generation == generation
  {
    hide ToLe, Code, Unsigned, FromLe, DecodeKind, ValueAt, Encode;
    KindField(f.kind, b[6..8]);
    ValueRoundTrip(f.values.0, b[16..20]);
    ValueRoundTrip(f.values.1, b[20..24]);
    ValueRoundTrip(f.values.2, b[24..28]);
    ValueRoundTrip(f.values.3, b[28..32]);
    if Decode(b, generation) == Ok(f) {
      FieldsDetermine(b, f);
    }
    if b == Encode(f) && f.generation == generation {
      EncodedFields(f);
    }
  }

  /** The codes on the wire. */
  lemma KindCodes()
    ensures Code(Hello) == 1 && Code(Started) == 2 && Code(Admitted) == 3 && Code(WorkloadExit) == 4
    ensures Code(StartFailed) == 5 && Code(Fault) == 6 && Code(Retiring) == 7
    ensures Code(Terminate) == 10 && Code(Kill) == 11 && Code(Release) == 12 && Code(Finish) == 13
    ensures Code(Abort) == 14 && Code(Successor) == 15 && Code(Execute) == 16
    ensures Code(SignalApplied) == 17 && Code(Escalated) == 18
  {
  }

  /** One record, byte by byte. */
  lemma KnownRecord()
    ensures Encode(Frame(Successor, 0x0102_0304_0506_0708, (258, -1, -0x8000_0000, 7))) ==
              [80, 84, 71, 82, 1, 0, 15, 0, 8, 7, 6, 5, 4, 3, 2, 1,
               2, 1, 0, 0, 255, 255, 255, 255, 0, 0, 0, 128, 7, 0, 0, 0]
  {
    hide ToLe;
    KnownWide();
    KnownWords();
  }

  lemma KnownWords()
    ensures ToLe(1, 2) == [1, 0] && ToLe(15, 2) == [15, 0]
    ensures ToLe(258, 4) == [2, 1, 0, 0] && ToLe(7, 4) == [7, 0, 0, 0]
    ensures ToLe(0xFFFF_FFFF, 4) == [255, 255, 255, 255] && ToLe(0x8000_0000, 4) == [0, 0, 0, 128]
  {
  }

  lemma KnownWide()
    ensures ToLe(0x0102_0304_0506_0708, 8) == [8, 7, 6, 5, 4, 3, 2, 1]
  {
    assert ToLe(0x0102_0304, 4) == [4, 3, 2, 1];
    assert ToLe(0x0102_0304_0506, 6) == [6, 5, 4, 3, 2, 1];
  }
}
