/**
 * The hand-written readers of the protobuf wire format (Protocol Buffers Encoding, sections "Base 128 Varints"
 * and "Message Structure"): one varint field at the front of an item, and a summary of the top-level fields.
 */
module WireFormat {
  import opened Prelude

  type byte = b: nat | b < 256

  /** Reading past the end yields `undefined`, which every mask turns into 0. */
  function ByteAt(buf: seq<byte>, i: nat): byte {
    if i < |buf| then buf[i] else 0
  }

  /** The varint that starts at `offset`, and the offset behind it. */
  function ReadVarint(buf: seq<byte>, offset: nat): (nat, nat)
    decreases |buf| - offset
  {
    var b := ByteAt(buf, offset);
    if b >= 128 && offset + 1 < |buf| then
      var (rest, next) := ReadVarint(buf, offset + 1);
      (b % 128 + 128 * rest, next)
    else (b % 128, offset + 1)
  }

  /** A number as groups of seven bits, lowest first, all but the last flagged. */
  function EncodeVarint(n: nat): (code: seq<byte>)
    ensures code != []
  {
    if n < 128 then [n] else [128 + n % 128] + EncodeVarint(n / 128)
  }

  /** The bytes of `chunk` stand in the buffer from `offset` on. */
  ghost predicate Holds(buf: seq<byte>, offset: nat, chunk: seq<byte>) {
    offset + |chunk| <= |buf| && buf[offset..offset + |chunk|] == chunk
  }

  lemma HoldsByte(buf: seq<byte>, offset: nat, b: byte)
    requires Holds(buf, offset, [b])
    ensures buf[offset] == b
  {
    assert buf[offset] == buf[offset..offset + 1][0];
  }

  lemma HoldsParts(buf: seq<byte>, offset: nat, a: seq<byte>, b: seq<byte>)
    requires Holds(buf, offset, a + b)
    ensures Holds(buf, offset, a) && Holds(buf, offset + |a|, b)
  {
    var whole := buf[offset..offset + |a + b|];
    assert whole[..|a|] == a && whole[|a|..] == b;
  }

  lemma {:induction false} VarintRoundTrip(buf: seq<byte>, offset: nat, n: nat)
    requires Holds(buf, offset, EncodeVarint(n))
    ensures ReadVarint(buf, offset) == (n, offset + |EncodeVarint(n)|)
    decreases n
  {
    var code := EncodeVarint(n);
    assert buf[offset..offset + |code|][0] == buf[offset];
    if n >= 128 {
      HoldsParts(buf, offset, [128 + n % 128], EncodeVarint(n / 128));
      VarintRoundTrip(buf, offset + 1, n / 128);
      assert |EncodeVarint(n / 128)| > 0;
    }
  }

  /** What the lowest `m` groups of seven bits of a number make. */
  function LowGroups(n: nat, m: nat): nat
    decreases m
  {
    if m == 0 then 0 else n % 128 + 128 * LowGroups(n / 128, m - 1)
  }

  lemma {:induction false} LowGroupsSuffice(n: nat, m: nat)
    requires |EncodeVarint(n)| <= m
    ensures LowGroups(n, m) == n
    decreases m
  {
    if n >= 128 {
      LowGroupsSuffice(n / 128, m - 1);
    } else {
      LowGroupsOfZero(m - 1);
    }
  }

  lemma {:induction false} LowGroupsOfZero(m: nat)
    ensures LowGroups(0, m) == 0
  {
    if m > 0 {
      LowGroupsOfZero(m - 1);
    }
  }

  lemma CutParts(buf: seq<byte>, offset: nat, a: seq<byte>, b: seq<byte>, n: nat)
    requires offset + n == |buf| && |a| <= n <= |a + b| && buf[offset..] == (a + b)[..n]
    ensures Holds(buf, offset, a) && buf[offset + |a|..] == b[..n - |a|]
  {
    assert buf[offset..offset + |a|] == buf[offset..][..|a|] == a;
    assert buf[offset + |a|..] == buf[offset..][|a|..] == b[..n - |a|];
  }

  lemma {:induction false} CutStep(buf: seq<byte>, offset: nat, n: nat, m: nat)
    requires offset + m == |buf| && m > 0 && buf[offset] == 128 + n % 128
    requires m > 1 ==> ReadVarint(buf, offset + 1) == (LowGroups(n / 128, m - 1), |buf|)
    ensures ReadVarint(buf, offset) == (LowGroups(n, m), |buf|)
  {
    assert (128 + n % 128) % 128 == n % 128;
    if m == 1 {
      assert LowGroups(n / 128, 0) == 0;
    }
  }

  /** Of a varint cut off after `m` bytes the groups there are read, and the buffer is at its end. */
  lemma {:induction false} CutVarint(buf: seq<byte>, offset: nat, n: nat, m: nat)
    requires offset + m == |buf| && m < |EncodeVarint(n)| && buf[offset..] == EncodeVarint(n)[..m]
    ensures ReadVarint(buf, offset) == (LowGroups(n, m), if m == 0 then offset + 1 else |buf|)
    decreases m
  {
    if m > 0 {
      CutParts(buf, offset, [128 + n % 128], EncodeVarint(n / 128), m);
      HoldsByte(buf, offset, 128 + n % 128);
      if m > 1 {
        CutVarint(buf, offset + 1, n / 128, m - 1);
      }
      CutStep(buf, offset, n, m);
    }
  }

  /** The value of what is read so far and what is still to come, if anything is. */
  function Completed(buf: seq<byte>, value: nat, scale: nat, offset: nat, more: bool): (nat, nat) {
    if more then (value + scale * ReadVarint(buf, offset).0, ReadVarint(buf, offset).1) else (value, offset)
  }

  lemma {:induction false} CompletedNext(buf: seq<byte>, value: nat, scale: nat, offset: nat)
    requires value < scale && offset < |buf|
    ensures var b := ByteAt(buf, offset);
            && Completed(buf, value + scale * (b % 128), scale * 128, offset + 1, b >= 128 && offset + 1 < |buf|) == Completed(buf, value, scale, offset, true)
            && value + scale * (b % 128) < scale * 128
  {
    var b := ByteAt(buf, offset);
    Regroup(value, scale, b % 128, if b >= 128 && offset + 1 < |buf| then ReadVarint(buf, offset + 1).0 else 0);
  }

  /** The loop that reads a varint: `value` collects the groups read so far, which all lie below `scale`. */
  method Varint(buf: seq<byte>, start: nat) returns (value: nat, offset: nat)
    ensures (value, offset) == ReadVarint(buf, start)
  {
    offset := start;
    var b := ByteAt(buf, offset);
    value, offset := b % 128, offset + 1;
    var scale: nat := 128;
    while b >= 128 && offset < |buf|
      invariant start < offset && value < scale
      invariant Completed(buf, value, scale, offset, b >= 128 && offset < |buf|) == ReadVarint(buf, start)
      decreases |buf| - offset
    {
      CompletedNext(buf, value, scale, offset);
      b := ByteAt(buf, offset);
      value, offset := value + scale * (b % 128), offset + 1;
      scale := scale * 128;
    }
  }

  lemma Distribute(a: nat, b: nat, c: nat)
    ensures a * (b + c) == a * b + a * c
  {
  }

  lemma Reassociate(a: nat, b: nat, c: nat)
    ensures a * (b * c) == a * b * c
  {
  }

  lemma Regroup(value: nat, scale: nat, group: nat, tail: nat)
    requires value < scale && group < 128
    ensures value + scale * (group + 128 * tail) == value + scale * group + scale * 128 * tail
    ensures value + scale * group < scale * 128
  {
    Distribute(scale, group, 128 * tail);
    Reassociate(scale, 128, tail);
    MulMonotone(group, 127, scale);
  }

  /** The id of an item: field 1, a varint, at the very front. */
  method PeekEconItemId(data: seq<byte>) returns (id: Option<nat>)
    ensures id == if data == [] || data[0] != 0x08 then None else Some(ReadVarint(data, 1).0)
  {
    if data == [] || data[0] != 0x08 {
      return None;
    }
    var value, offset := Varint(data, 1);
    id := Some(value);
  }

  /** Whatever follows it, the id that was written is the id that is peeked. */
  lemma PeekRoundTrip(n: nat, after: seq<byte>)
    ensures var data := EncodeVarint(1 * 8 + 0) + EncodeVarint(n) + after;
            data[0] == 0x08 && ReadVarint(data, 1).0 == n
  {
    assert EncodeVarint(8) == [0x08];
    var data := [0x08] + EncodeVarint(n) + after;
    assert data[1..1 + |EncodeVarint(n)|] == EncodeVarint(n);
    VarintRoundTrip(data, 1, n);
  }

  // ----- Top-level fields -----

  datatype Field =
    | VarintField(number: nat, value: nat)
    | Fixed64(number: nat, bytes: seq<byte>)
    | Delimited(number: nat, bytes: seq<byte>)
    | Fixed32(number: nat, bytes: seq<byte>)

  predicate WellFormed(f: Field) {
    (f.Fixed64? ==> |f.bytes| == 8) && (f.Fixed32? ==> |f.bytes| == 4)
  }

  predicate AllWellFormed(fields: seq<Field>) {
    forall k :: 0 <= k < |fields| ==> WellFormed(fields[k])
  }

  function WireType(f: Field): nat {
    match f
    case VarintField(_, _) => 0
    case Fixed64(_, _) => 1
    case Delimited(_, _) => 2
    case Fixed32(_, _) => 5
  }

  /** What follows the tag. */
  function EncodePayload(f: Field): seq<byte> {
    match f
    case VarintField(_, value) => EncodeVarint(value)
    case Fixed64(_, bytes) => bytes
    case Delimited(_, bytes) => EncodeVarint(|bytes|) + bytes
    case Fixed32(_, bytes) => bytes
  }

  function EncodeField(f: Field): (code: seq<byte>)
    ensures code != []
  {
    EncodeVarint(f.number * 8 + WireType(f)) + EncodePayload(f)
  }

  function Concat(codes: seq<seq<byte>>): seq<byte> {
    if codes == [] then [] else codes[0] + Concat(codes[1..])
  }

  /** The fields of a message, each as its bytes. */
  function Codes(fields: seq<Field>): seq<seq<byte>> {
    seq(|fields|, k requires 0 <= k < |fields| => EncodeField(fields[k]))
  }

  function Encode(fields: seq<Field>): seq<byte> {
    Concat(Codes(fields))
  }

  datatype Shown = Number(n: nat) | F64 | BytesOf(length: nat) | F32

  datatype Summary = Summary(field: nat, v: Shown)

  function Summarise(f: Field): Summary {
    match f
    case VarintField(number, value) => Summary(number, Number(value))
    case Fixed64(number, _) => Summary(number, F64)
    case Delimited(number, bytes) => Summary(number, BytesOf(|bytes|))
    case Fixed32(number, _) => Summary(number, F32)
  }

  function SummariseAll(fields: seq<Field>): seq<Summary> {
    seq(|fields|, k requires 0 <= k < |fields| => Summarise(fields[k]))
  }

  /** What stands at `o` after a tag, and the offset behind it; `None` for a wire type that is not known. */
  function ReadPayload(buf: seq<byte>, number: nat, wire: nat, o: nat): Option<(Summary, nat)> {
    if wire == 0 then (var (value, next) := ReadVarint(buf, o); Some((Summary(number, Number(value)), next)))
    else if wire == 1 then Some((Summary(number, F64), o + 8))
    else if wire == 2 then (var (length, next) := ReadVarint(buf, o); Some((Summary(number, BytesOf(length)), next + length)))
    else if wire == 5 then Some((Summary(number, F32), o + 4))
    else None
  }

  /** The field that starts at `offset` and the offset behind it. */
  function ReadField(buf: seq<byte>, offset: nat): Option<(Summary, nat)> {
    var (tag, o) := ReadVarint(buf, offset);
    ReadPayload(buf, tag / 8, tag % 8, o)
  }

  /** The summaries of at most `room` fields from `offset` on. */
  function Walk(buf: seq<byte>, offset: nat, room: nat): seq<Summary>
    decreases room
  {
    if offset >= |buf| || room == 0 then []
    else
      match ReadField(buf, offset)
      case None => []
      case Some((summary, next)) => [summary] + Walk(buf, next, room - 1)
  }

  function Tag(f: Field): nat { f.number * 8 + WireType(f) }

  lemma TagRoundTrip(buf: seq<byte>, offset: nat, f: Field)
    requires Holds(buf, offset, EncodeField(f))
    ensures var o := offset + |EncodeVarint(Tag(f))|;
            ReadVarint(buf, offset) == (Tag(f), o) && Holds(buf, o, EncodePayload(f))
    ensures Tag(f) / 8 == f.number && Tag(f) % 8 == WireType(f)
  {
    HoldsParts(buf, offset, EncodeVarint(Tag(f)), EncodePayload(f));
    VarintRoundTrip(buf, offset, Tag(f));
  }

  lemma PayloadRoundTrip(buf: seq<byte>, o: nat, f: Field)
    requires WellFormed(f) && Holds(buf, o, EncodePayload(f))
    ensures ReadPayload(buf, Tag(f) / 8, WireType(f), o) == Some((Summarise(f), o + |EncodePayload(f)|))
  {
    match f
    case VarintField(_, value) =>
      VarintRoundTrip(buf, o, value);
    case Delimited(_, bytes) =>
      HoldsParts(buf, o, EncodeVarint(|bytes|), bytes);
      VarintRoundTrip(buf, o, |bytes|);
    case _ =>
  }

  lemma FieldRoundTrip(buf: seq<byte>, offset: nat, f: Field)
    requires WellFormed(f) && Holds(buf, offset, EncodeField(f))
    ensures ReadField(buf, offset) == Some((Summarise(f), offset + |EncodeField(f)|))
  {
    TagRoundTrip(buf, offset, f);
    PayloadRoundTrip(buf, offset + |EncodeVarint(Tag(f))|, f);
  }

  /** The first `n` of all summaries, in order, and those of `after`. */
  function Summaries(all: seq<Summary>, n: nat, after: seq<Summary>): seq<Summary> {
    if all == [] || n == 0 then after else [all[0]] + Summaries(all[1..], n - 1, after)
  }

  lemma {:induction false} SummariesLength(all: seq<Summary>, n: nat, after: seq<Summary>)
    ensures |Summaries(all, n, after)| == Min(n, |all|) + |after|
  {
    if all != [] && n > 0 {
      SummariesLength(all[1..], n - 1, after);
    }
  }

  // ----- Arbitrary bytes -----

  /**
   * Reading the field at `offset` looks one byte past the end of the buffer: the tag is the last thing in it, but
   * announces a varint or a length.
   */
  predicate Overruns(buf: seq<byte>, offset: nat) {
    var (tag, o) := ReadVarint(buf, offset);
    (tag % 8 == 0 || tag % 8 == 2) && o == |buf|
  }

  lemma {:induction false} ReadVarintStaysInside(buf: seq<byte>, offset: nat)
    requires offset < |buf|
    ensures offset < ReadVarint(buf, offset).1 <= |buf|
    decreases |buf| - offset
  {
    if ByteAt(buf, offset) >= 128 && offset + 1 < |buf| {
      ReadVarintStaysInside(buf, offset + 1);
    }
  }

  lemma WalkStep(buf: seq<byte>, offset: nat, room: nat, summary: Summary, next: nat)
    requires ReadField(buf, offset) == Some((summary, next)) && 0 < room && offset < |buf|
    ensures Walk(buf, offset, room) == [summary] + Walk(buf, next, room - 1)
  {
  }

  /** A tag without the value it announces is reported all the same, with the value 0, and ends the walk. */
  lemma OverrunReadsZero(buf: seq<byte>, offset: nat, room: nat)
    requires offset < |buf| && Overruns(buf, offset) && 0 < room
    ensures var tag := ReadVarint(buf, offset).0;
            Walk(buf, offset, room) == [Summary(tag / 8, if tag % 8 == 0 then Number(0) else BytesOf(0))]
  {
    var (tag, o) := ReadVarint(buf, offset);
    assert ReadVarint(buf, o) == (0, o + 1);
    assert Walk(buf, o + 1, room - 1) == [];
  }

  /** An encoded field is never read past its end. */
  lemma EncodedNeverOverruns(buf: seq<byte>, offset: nat, f: Field)
    requires WellFormed(f) && Holds(buf, offset, EncodeField(f))
    ensures !Overruns(buf, offset)
  {
    TagRoundTrip(buf, offset, f);
  }

  /** With room for that many fields, the walk from `offset` comes to a field whose reading overruns. */
  predicate ReachesOverrun(buf: seq<byte>, offset: nat, room: nat)
    decreases room
  {
    offset < |buf| && 0 < room
    && (Overruns(buf, offset)
        || match ReadField(buf, offset)
           case None => false
           case Some((_, next)) => ReachesOverrun(buf, next, room - 1))
  }

  const MAX_SUMMARIES: nat := 24

  /** One turn of the loop of `walkProto`, with the last position looked at. */
  method ReadOne(buf: seq<byte>, start: nat) returns (field: Option<(Summary, nat)>, ghost furthest: nat)
    requires start < |buf|
    ensures field == ReadField(buf, start)
    ensures furthest <= |buf| + 1 && (furthest == |buf| + 1 <==> Overruns(buf, start))
  {
    ReadVarintStaysInside(buf, start);
    var tag, offset := Varint(buf, start);
    furthest := offset;
    var number, wire := tag / 8, tag % 8;
    if wire == 0 || wire == 2 {
      var value, next := Varint(buf, offset);
      if offset < |buf| {
        ReadVarintStaysInside(buf, offset);
      }
      furthest := next;
      field := if wire == 0 then Some((Summary(number, Number(value)), next))
               else Some((Summary(number, BytesOf(value)), next + value));
    } else if wire == 1 {
      field := Some((Summary(number, F64), offset + 8));
    } else if wire == 5 {
      field := Some((Summary(number, F32), offset + 4));
    } else {
      field := None;
    }
  }

  /**
   * `walkProto`. `furthest` is the position behind the last one looked at: never more than one past the end, and that
   * exactly when the walk comes to a field that overruns.
   */
  method WalkProto(buf: seq<byte>) returns (out: seq<Summary>, ghost furthest: nat)
    ensures out == Walk(buf, 0, MAX_SUMMARIES)
    ensures furthest <= |buf| + 1 && (furthest == |buf| + 1 <==> ReachesOverrun(buf, 0, MAX_SUMMARIES))
  {
    out, furthest := WalkUpTo(buf, MAX_SUMMARIES);
  }

  /** What is summarised so far, and what is still to come; `furthest` tells whether a field has overrun yet. */
  ghost predicate Walking(buf: seq<byte>, out: seq<Summary>, offset: nat, max: nat, furthest: nat) {
    && |out| <= max && out + Walk(buf, offset, max - |out|) == Walk(buf, 0, max)
    && furthest <= |buf| + 1
    && (furthest == |buf| + 1 || ReachesOverrun(buf, offset, max - |out|) <==> ReachesOverrun(buf, 0, max))
  }

  lemma {:induction false} WalkingNext(buf: seq<byte>, out: seq<Summary>, offset: nat, max: nat, furthest: nat, seen: nat)
    requires Walking(buf, out, offset, max, furthest) && offset < |buf| && |out| < max
    requires seen <= |buf| + 1 && (seen == |buf| + 1 <==> Overruns(buf, offset))
    ensures match ReadField(buf, offset)
            case None =>
              && out == Walk(buf, 0, max)
              && (Max(furthest, seen) == |buf| + 1 <==> ReachesOverrun(buf, 0, max))
            case Some((summary, next)) => Walking(buf, out + [summary], next, max, Max(furthest, seen))
  {
    var room := max - |out|;
    if ReadField(buf, offset) == None {
      assert Walk(buf, offset, room) == [];
    } else {
      var (summary, next) := ReadField(buf, offset).value;
      WalkStep(buf, offset, room, summary, next);
      ConcatAssociative(out, [summary], Walk(buf, next, room - 1));
    }
  }

  method WalkUpTo(buf: seq<byte>, max: nat) returns (out: seq<Summary>, ghost furthest: nat)
    ensures out == Walk(buf, 0, max)
    ensures furthest <= |buf| + 1 && (furthest == |buf| + 1 <==> ReachesOverrun(buf, 0, max))
  {
    out, furthest := [], 0;
    var offset: nat := 0;
    while offset < |buf| && |out| < max
      invariant Walking(buf, out, offset, max, furthest)
      decreases max - |out|
    {
      var field;
      ghost var seen;
      field, seen := ReadOne(buf, offset);
      WalkingNext(buf, out, offset, max, furthest, seen);
      furthest := Max(furthest, seen);
      if field == None {
        break;
      }
      var (summary, next) := field.value;
      out, offset := out + [summary], next;
    }
  }

  // ----- Messages, whole or cut short, as sequences of codes -----

  /** The field that starts here is read as this, up to `next`, and does not overrun. */
  predicate ReadAt(buf: seq<byte>, o: nat, summary: Summary, next: nat) {
    o < |buf| && !Overruns(buf, o) && ReadField(buf, o) == Some((summary, next))
  }

  /** The field that starts here is read as this, and nothing is left behind it. */
  predicate ReadLast(buf: seq<byte>, o: nat, summary: Summary) {
    o < |buf| && match ReadField(buf, o)
                 case None => false
                 case Some((read, next)) => read == summary && next >= |buf|
  }

  /** The last bytes of the buffer, from `o` on, are the first `m` of a code that is not there as a whole. */
  ghost predicate EndsInside(buf: seq<byte>, o: nat, code: seq<byte>, m: nat) {
    0 < m < |code| && o + m == |buf| && buf[o..] == code[..m]
  }

  /** Wherever this code stands, it is read as this summary. */
  ghost predicate Reads(code: seq<byte>, summary: Summary) {
    forall buf: seq<byte>, o: nat :: Holds(buf, o, code) ==> ReadAt(buf, o, summary, o + |code|)
  }

  /** Wherever a buffer ends behind the first `m` bytes of this code, they are read as this summary, and end the walk. */
  ghost predicate ReadsCut(code: seq<byte>, m: nat, summary: Summary) {
    forall buf: seq<byte>, o: nat :: EndsInside(buf, o, code, m) ==> ReadLast(buf, o, summary)
  }

  /** Code by code these are read as these summaries. */
  ghost predicate AllRead(codes: seq<seq<byte>>, all: seq<Summary>) {
    |codes| == |all| && forall k :: 0 <= k < |codes| ==> Reads(codes[k], all[k])
  }

  /** From `offset` to `stop` these are read one by one. */
  predicate ReadsAs(buf: seq<byte>, offset: nat, all: seq<Summary>, whole: nat, stop: nat)
    decreases whole
  {
    if whole == 0 then offset == stop
    else
      all != [] && offset < |buf| && !Overruns(buf, offset)
      && match ReadField(buf, offset)
         case None => false
         case Some((summary, next)) => summary == all[0] && ReadsAs(buf, next, all[1..], whole - 1, stop)
  }

  lemma {:induction false} FirstIsRead(buf: seq<byte>, offset: nat, all: seq<Summary>, whole: nat, stop: nat) returns (next: nat)
    requires ReadsAs(buf, offset, all, whole, stop) && whole > 0
    ensures all != [] && ReadAt(buf, offset, all[0], next) && ReadsAs(buf, next, all[1..], whole - 1, stop)
  {
    next := ReadField(buf, offset).value.1;
  }

  lemma {:induction false} FirstIsWalked(buf: seq<byte>, offset: nat, all: seq<Summary>, whole: nat, stop: nat, room: nat) returns (next: nat)
    requires ReadsAs(buf, offset, all, whole, stop) && whole > 0 && room > 0
    ensures all != [] && ReadsAs(buf, next, all[1..], whole - 1, stop) && Walk(buf, offset, room) == [all[0]] + Walk(buf, next, room - 1)
  {
    next := FirstIsRead(buf, offset, all, whole, stop);
    WalkStep(buf, offset, room, all[0], next);
  }

  lemma {:induction false} WalkBeyond(buf: seq<byte>, offset: nat, all: seq<Summary>, whole: nat, stop: nat, room: nat)
    requires ReadsAs(buf, offset, all, whole, stop) && whole <= room
    ensures Walk(buf, offset, room) == Summaries(all, whole, Walk(buf, stop, room - whole))
    decreases whole
  {
    if whole > 0 {
      var next := FirstIsWalked(buf, offset, all, whole, stop, room);
      WalkBeyond(buf, next, all[1..], whole - 1, stop, room - 1);
    }
  }

  lemma {:induction false} ReadsFewer(buf: seq<byte>, offset: nat, all: seq<Summary>, whole: nat, stop: nat, n: nat) returns (earlier: nat)
    requires ReadsAs(buf, offset, all, whole, stop) && n <= whole
    ensures ReadsAs(buf, offset, all, n, earlier)
    decreases n
  {
    earlier := offset;
    if n > 0 {
      var next := FirstIsRead(buf, offset, all, whole, stop);
      earlier := ReadsFewer(buf, next, all[1..], whole - 1, stop, n - 1);
    }
  }

  lemma {:induction false} WalkReads(buf: seq<byte>, offset: nat, all: seq<Summary>, whole: nat, stop: nat, room: nat)
    requires ReadsAs(buf, offset, all, whole, stop)
    ensures Walk(buf, offset, room) == Summaries(all, Min(room, whole), Walk(buf, stop, Max(0, room - whole)))
  {
    if whole <= room {
      WalkBeyond(buf, offset, all, whole, stop, room);
    } else {
      var earlier := ReadsFewer(buf, offset, all, whole, stop, room);
      WalkBeyond(buf, offset, all, room, earlier, room);
    }
  }

  lemma {:induction false} ReadsInside(buf: seq<byte>, offset: nat, all: seq<Summary>, whole: nat, stop: nat, room: nat)
    requires ReadsAs(buf, offset, all, whole, stop)
    ensures ReachesOverrun(buf, offset, room) <==> ReachesOverrun(buf, stop, Max(0, room - whole))
    decreases whole
  {
    if whole > 0 && room > 0 {
      ReadsInside(buf, ReadField(buf, offset).value.1, all[1..], whole - 1, stop, room - 1);
    }
  }

  /** How many codes end within the first `n` bytes. */
  function Whole(codes: seq<seq<byte>>, n: nat): (k: nat)
    ensures k <= |codes|
  {
    if codes == [] || n < |codes[0]| then 0 else 1 + Whole(codes[1..], n - |codes[0]|)
  }

  /** How many bytes are left behind them. */
  function Leftover(codes: seq<seq<byte>>, n: nat): (left: nat)
    ensures left <= n
  {
    if codes == [] || n < |codes[0]| then n else Leftover(codes[1..], n - |codes[0]|)
  }

  /** From `offset` on the buffer consists of so many whole codes and `left` bytes of the next. */
  ghost predicate ConsistsOf(buf: seq<byte>, offset: nat, codes: seq<seq<byte>>, whole: nat, left: nat)
    decreases whole
  {
    if whole == 0 then offset + left == |buf| && (left > 0 ==> codes != [] && EndsInside(buf, offset, codes[0], left))
    else codes != [] && Holds(buf, offset, codes[0]) && ConsistsOf(buf, offset + |codes[0]|, codes[1..], whole - 1, left)
  }

  lemma {:induction false} CutConsistsOf(buf: seq<byte>, offset: nat, codes: seq<seq<byte>>, n: nat)
    requires offset + n == |buf| && n <= |Concat(codes)| && buf[offset..] == Concat(codes)[..n]
    ensures ConsistsOf(buf, offset, codes, Whole(codes, n), Leftover(codes, n))
    decreases codes
  {
    if codes != [] {
      var first, after := codes[0], Concat(codes[1..]);
      if n < |first| {
        assert (first + after)[..n] == first[..n];
      } else {
        CutParts(buf, offset, first, after, n);
        CutConsistsOf(buf, offset + |first|, codes[1..], n - |first|);
      }
    }
  }

  lemma {:induction false} ConsistsReads(buf: seq<byte>, offset: nat, codes: seq<seq<byte>>, all: seq<Summary>, whole: nat, left: nat)
    requires AllRead(codes, all) && ConsistsOf(buf, offset, codes, whole, left)
    ensures left <= |buf| && ReadsAs(buf, offset, all, whole, |buf| - left)
    decreases whole
  {
    if whole > 0 {
      assert Reads(codes[0], all[0]);
      assert ReadAt(buf, offset, all[0], offset + |codes[0]|);
      AllReadRest(codes, all);
      ConsistsReads(buf, offset + |codes[0]|, codes[1..], all[1..], whole - 1, left);
    }
  }

  lemma {:induction false} AllReadRest(codes: seq<seq<byte>>, all: seq<Summary>)
    requires AllRead(codes, all) && codes != []
    ensures AllRead(codes[1..], all[1..])
  {
    forall k | 0 <= k < |codes| - 1 ensures Reads(codes[1..][k], all[1..][k]) {
      assert Reads(codes[k + 1], all[k + 1]);
    }
  }

  lemma {:induction false} ConsistsEnds(buf: seq<byte>, offset: nat, codes: seq<seq<byte>>, whole: nat, left: nat)
    requires ConsistsOf(buf, offset, codes, whole, left) && left > 0
    ensures left <= |buf| && whole < |codes| && EndsInside(buf, |buf| - left, codes[whole], left)
    decreases whole
  {
    if whole > 0 {
      ConsistsEnds(buf, offset + |codes[0]|, codes[1..], whole - 1, left);
      assert codes[1..][whole - 1] == codes[whole];
    }
  }

  lemma {:induction false} LastIsShown(buf: seq<byte>, o: nat, room: nat, summary: Summary)
    requires ReadLast(buf, o, summary) && room > 0
    ensures Walk(buf, o, room) == [summary]
  {
    WalkStep(buf, o, room, summary, ReadField(buf, o).value.1);
  }

  /** What is shown of the code that is cut, if there is room for it. */
  function Phantom(last: Summary, whole: nat, left: nat, room: nat): seq<Summary> {
    if left == 0 || room <= whole then [] else [last]
  }

  lemma {:induction false} WalkEnds(buf: seq<byte>, codes: seq<seq<byte>>, whole: nat, left: nat, room: nat, last: Summary)
    requires ConsistsOf(buf, 0, codes, whole, left) && left <= |buf|
    requires left > 0 && whole < |codes| ==> ReadsCut(codes[whole], left, last)
    ensures left > 0 ==> whole < |codes|
    ensures Walk(buf, |buf| - left, Max(0, room - whole)) == Phantom(last, whole, left, room)
  {
    if left > 0 {
      ConsistsEnds(buf, 0, codes, whole, left);
      assert ReadLast(buf, |buf| - left, last);
      if room > whole {
        LastIsShown(buf, |buf| - left, room - whole, last);
      }
    }
  }

  /** The walk over the first `n` bytes of codes that can be read: those that are whole, and one more if the cut goes through it. */
  lemma {:induction false} CutWalk(codes: seq<seq<byte>>, all: seq<Summary>, n: nat, room: nat, last: Summary)
    requires AllRead(codes, all) && n <= |Concat(codes)|
    requires Leftover(codes, n) > 0 && Whole(codes, n) < |codes| ==> ReadsCut(codes[Whole(codes, n)], Leftover(codes, n), last)
    ensures Leftover(codes, n) > 0 ==> Whole(codes, n) < |codes|
    ensures Walk(Concat(codes)[..n], 0, room) == Summaries(all, Min(room, Whole(codes, n)), Phantom(last, Whole(codes, n), Leftover(codes, n), room))
  {
    var buf, whole, left := Concat(codes)[..n], Whole(codes, n), Leftover(codes, n);
    CutConsistsOf(buf, 0, codes, n);
    ConsistsReads(buf, 0, codes, all, whole, left);
    WalkReads(buf, 0, all, whole, |buf| - left, room);
    WalkEnds(buf, codes, whole, left, room, last);
  }

  lemma {:induction false} AllOfIt(codes: seq<seq<byte>>)
    ensures Whole(codes, |Concat(codes)|) == |codes| && Leftover(codes, |Concat(codes)|) == 0
  {
    if codes != [] {
      AllOfIt(codes[1..]);
    }
  }

  lemma {:induction false} NoMoreThanAll(all: seq<Summary>, room: nat)
    ensures Summaries(all, Min(room, |all|), []) == Summaries(all, room, [])
    decreases all
  {
    if all != [] && room > 0 {
      NoMoreThanAll(all[1..], room - 1);
    }
  }

  lemma {:induction false} WholeWalk(codes: seq<seq<byte>>, all: seq<Summary>, room: nat)
    requires AllRead(codes, all)
    ensures Walk(Concat(codes), 0, room) == Summaries(all, room, [])
  {
    var n := |Concat(codes)|;
    AllOfIt(codes);
    CutWalk(codes, all, n, room, Summary(0, F64));
    assert Concat(codes)[..n] == Concat(codes);
    NoMoreThanAll(all, room);
  }

  lemma {:induction false} WholeInside(codes: seq<seq<byte>>, all: seq<Summary>, room: nat)
    requires AllRead(codes, all)
    ensures !ReachesOverrun(Concat(codes), 0, room)
  {
    var buf := Concat(codes);
    AllOfIt(codes);
    assert buf[0..] == buf[..|buf|];
    CutConsistsOf(buf, 0, codes, |buf|);
    ConsistsReads(buf, 0, codes, all, |codes|, 0);
    ReadsInside(buf, 0, all, |codes|, |buf|, room);
  }

  // ----- What a cut makes of a field -----

  /** How many bytes of the value, or of the length, are among the first `m` bytes of a field. */
  function Behind(f: Field, m: nat): nat {
    if m < |EncodeVarint(Tag(f))| then 0 else m - |EncodeVarint(Tag(f))|
  }

  function ShownOfCut(f: Field, m: nat): Shown {
    match f
    case VarintField(_, value) => Number(LowGroups(value, m))
    case Fixed64(_, _) => F64
    case Delimited(_, bytes) => BytesOf(LowGroups(|bytes|, m))
    case Fixed32(_, _) => F32
  }

  /** What is made of the first `m` bytes of a field: its kind is kept, and of each number the groups that are there. */
  function Fragment(f: Field, m: nat): Summary {
    Summary(LowGroups(Tag(f), m) / 8, ShownOfCut(f, Behind(f, m)))
  }

  /** A number that may be cut off, with or without something behind it. */
  lemma PrefixVarint(buf: seq<byte>, offset: nat, n: nat, after: seq<byte>, m: nat)
    requires offset + m == |buf| && m <= |EncodeVarint(n) + after| && buf[offset..] == (EncodeVarint(n) + after)[..m]
    ensures ReadVarint(buf, offset) == (LowGroups(n, m), if m == 0 then offset + 1 else offset + Min(m, |EncodeVarint(n)|))
  {
    var code := EncodeVarint(n);
    if m < |code| {
      assert (code + after)[..m] == code[..m];
      CutVarint(buf, offset, n, m);
    } else {
      assert buf[offset..offset + |code|] == buf[offset..][..|code|] == code;
      VarintRoundTrip(buf, offset, n);
      LowGroupsSuffice(n, m);
    }
  }

  lemma CutPayload(buf: seq<byte>, o: nat, number: nat, f: Field, m: nat)
    requires WellFormed(f) && o + m == |buf| && m < |EncodePayload(f)| && buf[o..] == EncodePayload(f)[..m]
    ensures var read := ReadPayload(buf, number, WireType(f), o);
            read.Some? && read.value.0 == Summary(number, ShownOfCut(f, m)) && read.value.1 >= |buf|
  {
    match f
    case VarintField(_, value) =>
      CutVarint(buf, o, value, m);
    case Delimited(_, bytes) =>
      PrefixVarint(buf, o, |bytes|, bytes, m);
      if m >= |EncodeVarint(|bytes|)| {
        LowGroupsSuffice(|bytes|, m);
      }
    case _ =>
  }

  lemma EightFold(y: nat, r: nat, k: int)
    requires r < 8 && y == r + 8 * k
    ensures y % 8 == r && y / 8 == k
  {
  }

  lemma LowGroupsKeepWire(f: Field, m: nat)
    requires m > 0
    ensures LowGroups(Tag(f), m) % 8 == WireType(f)
  {
    var t, x := Tag(f), LowGroups(Tag(f) / 128, m - 1);
    assert t % 128 == t - 128 * (t / 128);
    EightFold(t % 128 + 128 * x, WireType(f), f.number - 16 * (t / 128) + 16 * x);
  }

  /** What is read of a field, from what is read of its tag and of what follows. */
  lemma CutRead(buf: seq<byte>, offset: nat, f: Field, m: nat, o: nat, next: nat)
    requires ReadVarint(buf, offset) == (LowGroups(Tag(f), m), o) && m > 0 && offset < |buf| <= next
    requires ReadPayload(buf, Fragment(f, m).field, WireType(f), o) == Some((Fragment(f, m), next))
    ensures ReadLast(buf, offset, Fragment(f, m))
  {
    LowGroupsKeepWire(f, m);
  }

  /** Nothing is left of what follows the tag. */
  lemma CutAway(buf: seq<byte>, f: Field, number: nat)
    ensures var read := ReadPayload(buf, number, WireType(f), |buf|);
            read.Some? && read.value.0 == Summary(number, ShownOfCut(f, 0)) && read.value.1 >= |buf|
  {
    assert ReadVarint(buf, |buf|) == (0, |buf| + 1);
  }

  lemma CutBetween(buf: seq<byte>, offset: nat, tag: seq<byte>, payload: seq<byte>, m: nat) returns (o: nat, left: nat)
    requires offset + m == |buf| && m < |tag + payload| && buf[offset..] == (tag + payload)[..m]
    ensures o == offset + Min(m, |tag|) && left == Max(0, m - |tag|)
    ensures o + left == |buf| && (m >= |tag| ==> left < |payload| && buf[o..] == payload[..left])
  {
    o, left := offset + Min(m, |tag|), Max(0, m - |tag|);
    if m >= |tag| {
      CutParts(buf, offset, tag, payload, m);
    }
  }

  /** What is read behind the tag, of which nothing may be left. */
  lemma CutBehindTag(buf: seq<byte>, offset: nat, f: Field, m: nat) returns (o: nat, next: nat)
    requires WellFormed(f) && 0 < m < |EncodeField(f)| && offset + m == |buf| && buf[offset..] == EncodeField(f)[..m]
    ensures o == offset + Min(m, |EncodeVarint(Tag(f))|) && next >= |buf|
    ensures ReadPayload(buf, Fragment(f, m).field, WireType(f), o) == Some((Fragment(f, m), next))
  {
    var number, left := Fragment(f, m).field, 0;
    o, left := CutBetween(buf, offset, EncodeVarint(Tag(f)), EncodePayload(f), m);
    if m < |EncodeVarint(Tag(f))| {
      CutAway(buf, f, number);
    } else {
      CutPayload(buf, o, number, f, left);
    }
    next := ReadPayload(buf, number, WireType(f), o).value.1;
  }

  /** A field that is cut off is reported as its fragment, and ends the walk. */
  lemma CutField(buf: seq<byte>, offset: nat, f: Field, m: nat)
    requires WellFormed(f) && 0 < m < |EncodeField(f)| && offset + m == |buf| && buf[offset..] == EncodeField(f)[..m]
    ensures ReadLast(buf, offset, Fragment(f, m))
  {
    var o, next := CutBehindTag(buf, offset, f, m);
    PrefixVarint(buf, offset, Tag(f), EncodePayload(f), m);
    CutRead(buf, offset, f, m, o, next);
  }

  // ----- The messages of the protocol -----

  lemma {:induction false} FieldReads(f: Field)
    requires WellFormed(f)
    ensures Reads(EncodeField(f), Summarise(f))
  {
    forall buf: seq<byte>, o: nat | Holds(buf, o, EncodeField(f)) ensures ReadAt(buf, o, Summarise(f), o + |EncodeField(f)|) {
      FieldRoundTrip(buf, o, f);
      EncodedNeverOverruns(buf, o, f);
    }
  }

  lemma {:induction false} FieldReadsCut(f: Field, m: nat)
    requires WellFormed(f)
    ensures ReadsCut(EncodeField(f), m, Fragment(f, m))
  {
    forall buf: seq<byte>, o: nat | EndsInside(buf, o, EncodeField(f), m) ensures ReadLast(buf, o, Fragment(f, m)) {
      CutField(buf, o, f, m);
    }
  }

  lemma {:induction false} MessageReads(fields: seq<Field>)
    requires AllWellFormed(fields)
    ensures AllRead(Codes(fields), SummariseAll(fields))
  {
    forall k | 0 <= k < |fields| ensures Reads(Codes(fields)[k], SummariseAll(fields)[k]) {
      FieldReads(fields[k]);
    }
  }

  /** The walk over any encoded list of fields reports the first `room` of them, in order, and never looks past the end. */
  lemma {:induction false} WalkRoundTrip(fields: seq<Field>, room: nat)
    requires AllWellFormed(fields)
    ensures Walk(Encode(fields), 0, room) == Summaries(SummariseAll(fields), room, [])
    ensures !ReachesOverrun(Encode(fields), 0, room)
  {
    MessageReads(fields);
    WholeWalk(Codes(fields), SummariseAll(fields), room);
    WholeInside(Codes(fields), SummariseAll(fields), room);
  }

  /** What is reported of the field that is cut after `n` bytes of a message. */
  function LastShown(fields: seq<Field>, n: nat): Summary {
    var whole := Whole(Codes(fields), n);
    if whole < |fields| then Fragment(fields[whole], Leftover(Codes(fields), n)) else Summary(0, F64)
  }

  /**
   * The walk over the first `n` bytes of any message reports the fields that are whole, and, while there is room, one
   * more if the cut goes through it.
   */
  lemma {:induction false} TruncatedWalk(fields: seq<Field>, n: nat, room: nat)
    requires AllWellFormed(fields) && n <= |Encode(fields)|
    ensures var whole, left := Whole(Codes(fields), n), Leftover(Codes(fields), n);
            && (left > 0 ==> whole < |fields|)
            && Walk(Encode(fields)[..n], 0, room) == Summaries(SummariseAll(fields), Min(room, whole), Phantom(LastShown(fields, n), whole, left, room))
  {
    MessageReads(fields);
    var whole := Whole(Codes(fields), n);
    if whole < |fields| {
      FieldReadsCut(fields[whole], Leftover(Codes(fields), n));
    }
    CutWalk(Codes(fields), SummariseAll(fields), n, room, LastShown(fields, n));
  }

  /** What was read until the cut is returned, and nothing else, exactly if the cut is between fields or out of reach. */
  lemma {:induction false} TruncationUnnoticed(fields: seq<Field>, n: nat, room: nat)
    requires AllWellFormed(fields) && n <= |Encode(fields)|
    ensures var whole, left := Whole(Codes(fields), n), Leftover(Codes(fields), n);
            Walk(Encode(fields)[..n], 0, room) == Summaries(SummariseAll(fields), Min(room, whole), []) <==> left == 0 || room <= whole
  {
    TruncatedWalk(fields, n, room);
    var all, whole := SummariseAll(fields), Whole(Codes(fields), n);
    SummariesLength(all, Min(room, whole), []);
    SummariesLength(all, Min(room, whole), Phantom(LastShown(fields, n), whole, Leftover(Codes(fields), n), room));
  }

  lemma InsideValue()
    ensures ReadLast([0x08, 0x96], 0, Summary(1, Number(22)))
  {
    assert ReadVarint([0x08, 0x96], 0) == (8, 1) && ReadVarint([0x08, 0x96], 1) == (22, 2);
  }

  lemma InsideBytes()
    ensures ReadLast([0x0a, 0x03, 7], 0, Summary(1, BytesOf(3)))
  {
    assert ReadVarint([0x0a, 0x03, 7], 0) == (10, 1) && ReadVarint([0x0a, 0x03, 7], 1) == (3, 2);
  }

  /** Cuts behind a tag, inside a value, inside the bytes of a field, and inside a tag. */
  lemma TruncatedMessagesShowPhantoms()
    ensures Walk([0x08], 0, MAX_SUMMARIES) == [Summary(1, Number(0))]
    ensures Walk([0x08, 0x96], 0, MAX_SUMMARIES) == [Summary(1, Number(22))]
    ensures Walk([0x0a, 0x03, 7], 0, MAX_SUMMARIES) == [Summary(1, BytesOf(3))]
    ensures Walk([0x80], 0, MAX_SUMMARIES) == [Summary(0, Number(0))]
  {
    OverrunReadsZero([0x08], 0, MAX_SUMMARIES);
    OverrunReadsZero([0x80], 0, MAX_SUMMARIES);
    InsideValue();
    LastIsShown([0x08, 0x96], 0, MAX_SUMMARIES, Summary(1, Number(22)));
    InsideBytes();
    LastIsShown([0x0a, 0x03, 7], 0, MAX_SUMMARIES, Summary(1, BytesOf(3)));
  }
}
