/** Bounded JSON framing of the failure-detail response (crates/resticpal-protocol/src/lib.rs),
    with string escaping as in section 7 of RFC 8259. */
module Frame {
  import opened Common
  import opened Status

  const MAX_FRAME_BYTES: nat := 1024 * 1024

  const QUOTE: byte := 0x22
  const BACKSLASH: byte := 0x5C
  const COMMA: byte := 0x2C
  const OPEN_BRACKET: byte := 0x5B
  const CLOSE_BRACKET: byte := 0x5D
  const ZERO: byte := 0x30

  /** What is left of the input once a value has been read from its front. */
  datatype Read<T> = Malformed | Read(value: T, rest: seq<byte>)

  // ---------------------------------------------------------------- numbers

  function Digits(n: nat): seq<byte> {
    if n < 10 then [ZERO + (n as byte)] else Digits(n / 10) + [ZERO + ((n % 10) as byte)]
  }

  predicate IsDigit(b: byte) {
    ZERO <= b <= ZERO + 9
  }

  predicate StartsWithDigit(bytes: seq<byte>) {
    bytes != [] && IsDigit(bytes[0])
  }

  /** Reads digits onto an accumulator. */
  function ReadDigits(bytes: seq<byte>, acc: nat): (nat, seq<byte>) {
    if StartsWithDigit(bytes) then ReadDigits(bytes[1..], 10 * acc + (bytes[0] - ZERO) as nat) else (acc, bytes)
  }

  function ReadNumber(bytes: seq<byte>): Read<nat> {
    if StartsWithDigit(bytes) then var (n, rest) := ReadDigits(bytes, 0); Read(n, rest) else Malformed
  }

  function Pow10(k: nat): nat {
    if k == 0 then 1 else 10 * Pow10(k - 1)
  }

  lemma {:induction false} DigitsAreShort(n: nat, k: nat)
    requires k > 0 && n < Pow10(k)
    ensures 1 <= |Digits(n)| <= k
  {
    if n >= 10 {
      DigitsAreShort(n / 10, k - 1);
    }
  }

  lemma U64FitsTwentyDigits()
    ensures U64_MAX < Pow10(20)
  {
    assert Pow10(5) == 100000;
    assert Pow10(10) == 100000 * Pow10(5);
    assert Pow10(15) == 100000 * Pow10(10);
    assert Pow10(20) == 100000 * Pow10(15);
  }

  /** Reading the digits of `n` behind an accumulator appends them decimally. */
  lemma {:induction false} ReadDigitsOf(n: nat, rest: seq<byte>)
    requires !StartsWithDigit(rest)
    ensures ReadDigits(Digits(n) + rest, 0) == (n, rest)
    ensures StartsWithDigit(Digits(n))
  {
    ReadDigitsPrefix(n, rest);
    DigitsStart(n);
  }

  lemma {:induction false} DigitsStart(n: nat)
    ensures StartsWithDigit(Digits(n))
  {
    if n >= 10 { DigitsStart(n / 10); }
  }

  /** After the digits of `n`, the reader holds `n` and stands at the tail, whatever it is. */
  lemma {:induction false} ReadDigitsPrefix(n: nat, tail: seq<byte>)
    ensures ReadDigits(Digits(n) + tail, 0) == ReadDigits(tail, n)
  {
    if n < 10 {
      assert (Digits(n) + tail)[1..] == tail;
    } else {
      var last := [ZERO + ((n % 10) as byte)];
      ReadDigitsPrefix(n / 10, last + tail);
      assert Digits(n) + tail == Digits(n / 10) + (last + tail);
      assert (last + tail)[1..] == tail;
    }
  }

  lemma NumberRoundTrip(n: nat, rest: seq<byte>)
    requires !StartsWithDigit(rest)
    ensures ReadNumber(Digits(n) + rest) == Read(n, rest)
  {
    ReadDigitsOf(n, rest);
  }

  // ---------------------------------------------------------------- strings

  function HexDigit(n: nat): byte
    requires n < 16
  {
    if n < 10 then ZERO + (n as byte) else 0x61 + ((n - 10) as byte)
  }

  function EscapeByte(b: byte): seq<byte> {
    if b == QUOTE || b == BACKSLASH then [BACKSLASH, b]
    else if b == 0x08 then [BACKSLASH, 0x62]
    else if b == 0x09 then [BACKSLASH, 0x74]
    else if b == 0x0A then [BACKSLASH, 0x6E]
    else if b == 0x0C then [BACKSLASH, 0x66]
    else if b == 0x0D then [BACKSLASH, 0x72]
    else if b < 0x20 then [BACKSLASH, 0x75, ZERO, ZERO, HexDigit((b as nat) / 16), HexDigit((b as nat) % 16)]
    else [b]
  }

  function Escape(s: seq<byte>): seq<byte> {
    if s == [] then [] else EscapeByte(s[0]) + Escape(s[1..])
  }

  function HexValue(b: byte): Option<nat> {
    if IsDigit(b) then Some((b - ZERO) as nat)
    else if 0x61 <= b <= 0x66 then Some((b - 0x61) as nat + 10)
    else None
  }

  /** One character of a string, of the kinds the writer produces. */
  function ReadByte(bytes: seq<byte>): (r: Read<byte>)
    ensures r.Read? ==> |r.rest| < |bytes|
  {
    if bytes == [] || bytes[0] == QUOTE || bytes[0] < 0x20 then Malformed
    else if bytes[0] != BACKSLASH then Read(bytes[0], bytes[1..])
    else if |bytes| < 2 then Malformed
    else
      var e := bytes[1];
      if e == QUOTE || e == BACKSLASH then Read(e, bytes[2..])
      else if e == 0x62 then Read(0x08, bytes[2..])
      else if e == 0x74 then Read(0x09, bytes[2..])
      else if e == 0x6E then Read(0x0A, bytes[2..])
      else if e == 0x66 then Read(0x0C, bytes[2..])
      else if e == 0x72 then Read(0x0D, bytes[2..])
      else if e == 0x75 && |bytes| >= 6 && bytes[2] == bytes[3] == ZERO
              && HexValue(bytes[4]).Some? && HexValue(bytes[5]).Some? then
        Read((16 * HexValue(bytes[4]).value + HexValue(bytes[5]).value) as byte, bytes[6..])
      else Malformed
  }

  /** The rest of a string, up to its closing quote. */
  function ReadTail(bytes: seq<byte>): (r: Read<seq<byte>>)
    ensures r.Read? ==> |r.rest| < |bytes|
  {
    if bytes != [] && bytes[0] == QUOTE then Read([], bytes[1..])
    else
      match ReadByte(bytes)
      case Malformed => Malformed
      case Read(b, rest) =>
        match ReadTail(rest)
        case Malformed => Malformed
        case Read(tail, rest') => Read([b] + tail, rest')
  }

  function EncodeString(s: seq<byte>): seq<byte> {
    [QUOTE] + Escape(s) + [QUOTE]
  }

  function ReadString(bytes: seq<byte>): (r: Read<seq<byte>>)
    ensures r.Read? ==> |r.rest| < |bytes|
  {
    if bytes != [] && bytes[0] == QUOTE then ReadTail(bytes[1..]) else Malformed
  }

  lemma ReadByteOfEscape(b: byte, rest: seq<byte>)
    ensures ReadByte(EscapeByte(b) + rest) == Read(b, rest)
    ensures (EscapeByte(b) + rest)[0] != QUOTE
  {
    DropConcat(EscapeByte(b), rest);
  }

  lemma ReadTailOfEscape(b: byte, rest: seq<byte>, tail: seq<byte>, end: seq<byte>)
    requires ReadTail(rest) == Read(tail, end)
    ensures ReadTail(EscapeByte(b) + rest) == Read([b] + tail, end)
  {
    ReadByteOfEscape(b, rest);
  }

  lemma {:induction false} TailRoundTrip(s: seq<byte>, rest: seq<byte>)
    ensures ReadTail(Escape(s) + ([QUOTE] + rest)) == Read(s, rest)
  {
    var end := [QUOTE] + rest;
    if s == [] {
      assert Escape(s) + end == end && end[1..] == rest;
    } else {
      TailRoundTrip(s[1..], rest);
      ReadTailOfEscape(s[0], Escape(s[1..]) + end, s[1..], rest);
      ConcatAssociates(EscapeByte(s[0]), Escape(s[1..]), end);
      assert [s[0]] + s[1..] == s;
    }
  }

  /** Every byte string survives escaping and quoting, control characters included. */
  lemma StringRoundTrip(s: seq<byte>, rest: seq<byte>)
    ensures ReadString(EncodeString(s) + rest) == Read(s, rest)
  {
    TailRoundTrip(s, rest);
    ConcatAssociates([QUOTE] + Escape(s), [QUOTE], rest);
    ConcatAssociates([QUOTE], Escape(s), [QUOTE] + rest);
    DropConcat([QUOTE], Escape(s) + ([QUOTE] + rest));
  }

  /** A safe name at most doubles: only quotes and backslashes are escaped. */
  lemma {:induction false} SafeEscapeDoubles(s: seq<byte>)
    requires forall i :: 0 <= i < |s| ==> s[i] >= 0x20
    ensures |Escape(s)| <= 2 * |s|
  {
    if s != [] { SafeEscapeDoubles(s[1..]); }
  }

  // ---------------------------------------------------------------- the list of names

  function EncodeMore(items: seq<Item>): seq<byte> {
    if items == [] then [CLOSE_BRACKET] else [COMMA] + EncodeString(items[0]) + EncodeMore(items[1..])
  }

  function EncodeItems(items: seq<Item>): seq<byte> {
    if items == [] then [OPEN_BRACKET, CLOSE_BRACKET]
    else [OPEN_BRACKET] + EncodeString(items[0]) + EncodeMore(items[1..])
  }

  function ReadMore(bytes: seq<byte>): Read<seq<Item>>
    decreases |bytes|
  {
    if bytes == [] then Malformed
    else if bytes[0] == CLOSE_BRACKET then Read([], bytes[1..])
    else if bytes[0] != COMMA then Malformed
    else
      match ReadString(bytes[1..])
      case Malformed => Malformed
      case Read(item, rest) =>
        match ReadMore(rest)
        case Malformed => Malformed
        case Read(items, rest') => Read([item] + items, rest')
  }

  function ReadItems(bytes: seq<byte>): Read<seq<Item>> {
    if |bytes| < 2 || bytes[0] != OPEN_BRACKET then Malformed
    else if bytes[1] == CLOSE_BRACKET then Read([], bytes[2..])
    else
      match ReadString(bytes[1..])
      case Malformed => Malformed
      case Read(item, rest) =>
        match ReadMore(rest)
        case Malformed => Malformed
        case Read(items, rest') => Read([item] + items, rest')
  }

  lemma ReadMoreOfString(item: Item, rest: seq<byte>, items: seq<Item>, end: seq<byte>)
    requires ReadMore(rest) == Read(items, end)
    ensures ReadMore([COMMA] + (EncodeString(item) + rest)) == Read([item] + items, end)
  {
    StringRoundTrip(item, rest);
    DropConcat([COMMA], EncodeString(item) + rest);
  }

  lemma {:induction false} MoreRoundTrip(items: seq<Item>, rest: seq<byte>)
    ensures ReadMore(EncodeMore(items) + rest) == Read(items, rest)
    decreases |items|
  {
    if items == [] {
      DropConcat([CLOSE_BRACKET], rest);
    } else {
      MoreRoundTrip(items[1..], rest);
      var tail := EncodeMore(items[1..]) + rest;
      ReadMoreOfString(items[0], tail, items[1..], rest);
      Regroup([COMMA], EncodeString(items[0]), EncodeMore(items[1..]), rest);
      assert [items[0]] + items[1..] == items;
    }
  }

  lemma Regroup(a: seq<byte>, b: seq<byte>, c: seq<byte>, d: seq<byte>)
    ensures a + b + c + d == a + (b + (c + d))
  {
  }

  lemma ReadItemsOfString(item: Item, rest: seq<byte>, items: seq<Item>, end: seq<byte>)
    requires ReadMore(rest) == Read(items, end)
    ensures ReadItems([OPEN_BRACKET] + (EncodeString(item) + rest)) == Read([item] + items, end)
  {
    StringRoundTrip(item, rest);
    DropConcat([OPEN_BRACKET], EncodeString(item) + rest);
  }

  lemma ItemsRoundTrip(items: seq<Item>, rest: seq<byte>)
    ensures ReadItems(EncodeItems(items) + rest) == Read(items, rest)
  {
    if items == [] {
      DropConcat([OPEN_BRACKET, CLOSE_BRACKET], rest);
    } else {
      MoreRoundTrip(items[1..], rest);
      ReadItemsOfString(items[0], EncodeMore(items[1..]) + rest, items[1..], rest);
      Regroup([OPEN_BRACKET], EncodeString(items[0]), EncodeMore(items[1..]), rest);
      assert [items[0]] + items[1..] == items;
    }
  }

  lemma EncodedItemIsShort(item: Item)
    requires IsSafe(item)
    ensures |EncodeString(item)| <= 2 * MAX_BACKUP_FAILED_ITEM_BYTES + 2
  {
    forall i | 0 <= i < |item| ensures item[i] >= 0x20 {
      assert !ControlAt(item, i);
    }
    SafeEscapeDoubles(item);
  }

  lemma {:induction false} EncodedMoreIsShort(items: seq<Item>)
    requires AllSafe(items)
    ensures |EncodeMore(items)| <= |items| * (2 * MAX_BACKUP_FAILED_ITEM_BYTES + 3) + 1
    decreases |items|
  {
    if items != [] {
      EncodedItemIsShort(items[0]);
      EncodedMoreIsShort(items[1..]);
    }
  }

  lemma EncodedItemsAreShort(items: seq<Item>)
    requires AllSafe(items) && |items| <= MAX_BACKUP_FAILED_ITEMS
    ensures |EncodeItems(items)| <= 819_502
  {
    if items != [] {
      EncodedItemIsShort(items[0]);
      EncodedMoreIsShort(items[1..]);
    }
  }

  // ---------------------------------------------------------------- the response

  datatype FailureDetailsResponse = FailureDetailsResponse(requestId: nat, runId: nat, items: seq<Item>, omitted: nat)

  /** ASCII text as bytes. */
  function Text(s: string): seq<byte> {
    seq(|s|, i requires 0 <= i < |s| => (s[i] as int % 128) as byte)
  }

  const HEAD: string := "{\"protocol_version\":4,\"request_id\":"
  const PAYLOAD: string := "," + "\"payload\":{\"type\":\"run_failure_details\",\"details\":{\"run_id\":"
  const ITEMS: string := ",\"items\":"
  const OMITTED: string := ",\"omitted\":"
  const END: string := "}}}"

  function Encode(r: FailureDetailsResponse): seq<byte> {
    Text(HEAD) + (Digits(r.requestId) + (Text(PAYLOAD) + (Digits(r.runId) + (Text(ITEMS) + (EncodeItems(r.items)
      + (Text(OMITTED) + (Digits(r.omitted) + Text(END))))))))
  }

  function Expect(bytes: seq<byte>, text: seq<byte>): Option<seq<byte>> {
    if text <= bytes then Some(bytes[|text|..]) else None
  }

  /** The fields of the response in the order in which the writer emits them. */
  function Decode(bytes: seq<byte>): Option<FailureDetailsResponse> {
    var head := Expect(bytes, Text(HEAD));
    if head.None? then None else
    var requestId := ReadNumber(head.value);
    if requestId.Malformed? then None else
    var payload := Expect(requestId.rest, Text(PAYLOAD));
    if payload.None? then None else
    var runId := ReadNumber(payload.value);
    if runId.Malformed? then None else
    var list := Expect(runId.rest, Text(ITEMS));
    if list.None? then None else
    var items := ReadItems(list.value);
    if items.Malformed? then None else
    var more := Expect(items.rest, Text(OMITTED));
    if more.None? then None else
    var omitted := ReadNumber(more.value);
    if omitted.Malformed? || omitted.rest != Text(END) then None
    else Some(FailureDetailsResponse(requestId.value, runId.value, items.value, omitted.value))
  }

  lemma ExpectOfConcat(text: seq<byte>, rest: seq<byte>)
    ensures Expect(text + rest, text) == Some(rest)
  {
    DropConcat(text, rest);
  }

  lemma TextEndsANumber(text: string, rest: seq<byte>)
    requires |text| > 0 && (text[0] == ',' || text[0] == '}')
    ensures !StartsWithDigit(Text(text) + rest) && !StartsWithDigit(Text(text))
  {
    assert (Text(text) + rest)[0] == Text(text)[0];
  }

  lemma DecodeEncode(r: FailureDetailsResponse)
    ensures Decode(Encode(r)) == Some(r)
  {
    var t6 := Digits(r.omitted) + Text(END);
    var t5 := Text(OMITTED) + t6;
    var t4 := EncodeItems(r.items) + t5;
    var t3 := Text(ITEMS) + t4;
    var t2 := Digits(r.runId) + t3;
    var t1 := Text(PAYLOAD) + t2;
    var t0 := Digits(r.requestId) + t1;
    assert PAYLOAD[0] == ITEMS[0] == ',' && END[0] == '}';
    TextEndsANumber(PAYLOAD, t2);
    TextEndsANumber(ITEMS, t4);
    TextEndsANumber(END, []);
    ExpectOfConcat(Text(HEAD), t0);
    NumberRoundTrip(r.requestId, t1);
    ExpectOfConcat(Text(PAYLOAD), t2);
    NumberRoundTrip(r.runId, t3);
    ExpectOfConcat(Text(ITEMS), t4);
    ItemsRoundTrip(r.items, t5);
    ExpectOfConcat(Text(OMITTED), t6);
    NumberRoundTrip(r.omitted, Text(END));
  }

  predicate Deliverable(r: FailureDetailsResponse) {
    && r.requestId <= U64_MAX && r.runId <= U64_MAX && r.omitted <= U64_MAX
    && |r.items| <= MAX_BACKUP_FAILED_ITEMS && AllSafe(r.items)
  }

  lemma EncodedResponseFits(r: FailureDetailsResponse)
    requires Deliverable(r)
    ensures 0 < |Encode(r)| <= MAX_FRAME_BYTES
  {
    U64FitsTwentyDigits();
    DigitsAreShort(r.requestId, 20);
    DigitsAreShort(r.runId, 20);
    DigitsAreShort(r.omitted, 20);
    EncodedItemsAreShort(r.items);
  }

  // ---------------------------------------------------------------- frames

  function LittleEndian(n: nat): seq<byte>
    requires n < 0x1_0000_0000
  {
    [(n % 256) as byte, (n / 256 % 256) as byte, (n / 256 / 256 % 256) as byte, (n / 256 / 256 / 256) as byte]
  }

  function FromLittleEndian(b: seq<byte>): nat
    requires |b| == 4
  {
    b[0] as nat + 256 * (b[1] as nat + 256 * (b[2] as nat + 256 * (b[3] as nat)))
  }

  lemma LengthRoundTrip(n: nat)
    requires n < 0x1_0000_0000
    ensures FromLittleEndian(LittleEndian(n)) == n
  {
  }

  datatype FrameError = TooLarge(length: nat) | InvalidLength(length: nat) | UnexpectedEnd

  /** A byte pipe: writers append, readers consume from the front. */
  class ByteStream {
    var bytes: seq<byte>

    constructor ()
      ensures bytes == []
    {
      bytes := [];
    }

    method WriteFrame(payload: seq<byte>) returns (r: Result<(), FrameError>)
      modifies this
      ensures |payload| > MAX_FRAME_BYTES ==> r == Err(TooLarge(|payload|)) && bytes == old(bytes)
      ensures |payload| <= MAX_FRAME_BYTES ==>
        r.Ok? && bytes == old(bytes) + (LittleEndian(|payload|) + payload)
    {
      if |payload| > MAX_FRAME_BYTES {
        return Err(TooLarge(|payload|));
      }
      bytes := bytes + LittleEndian(|payload|);
      bytes := bytes + payload;
      assert bytes == old(bytes) + (LittleEndian(|payload|) + payload);
      return Ok(());
    }

    method ReadFrame() returns (r: Result<seq<byte>, FrameError>)
      modifies this
      ensures r == ReadOutcome(old(bytes))
      ensures r.Ok? ==> old(bytes)[4..] == r.value + bytes
    {
      if |bytes| < 4 {
        return Err(UnexpectedEnd);
      }
      var length := FromLittleEndian(bytes[..4]);
      bytes := bytes[4..];
      if length == 0 || length > MAX_FRAME_BYTES {
        return Err(InvalidLength(length));
      }
      if |bytes| < length {
        return Err(UnexpectedEnd);
      }
      var payload := bytes[..length];
      bytes := bytes[length..];
      return Ok(payload);
    }
  }

  /** What a reader makes of the bytes in front of it. */
  function ReadOutcome(bytes: seq<byte>): Result<seq<byte>, FrameError> {
    if |bytes| < 4 then Err(UnexpectedEnd)
    else
      var length := FromLittleEndian(bytes[..4]);
      if length == 0 || length > MAX_FRAME_BYTES then Err(InvalidLength(length))
      else if |bytes[4..]| < length then Err(UnexpectedEnd)
      else Ok(bytes[4..][..length])
  }

  /** A frame is read back whole, whatever follows it, and no strict prefix of it is taken for a frame. */
  lemma FrameRoundTrip(payload: seq<byte>, rest: seq<byte>, cut: nat)
    requires 0 < |payload| <= MAX_FRAME_BYTES
    requires cut < 4 + |payload|
    ensures ReadOutcome(LittleEndian(|payload|) + payload + rest) == Ok(payload)
    ensures ReadOutcome((LittleEndian(|payload|) + payload)[..cut]) == Err(UnexpectedEnd)
  {
    var header := LittleEndian(|payload|);
    LengthRoundTrip(|payload|);
    assert (header + payload + rest)[..4] == header;
    assert (header + payload + rest)[4..][..|payload|] == payload;
    if cut >= 4 {
      assert (header + payload)[..cut][..4] == header;
    }
  }

  /** Every failure-detail response the history can produce is written as one frame and read back
      equal, and nothing else is consumed. */
  method DeliverFailureDetails(stream: ByteStream, response: FailureDetailsResponse)
    returns (received: Option<FailureDetailsResponse>)
    requires Deliverable(response) && stream.bytes == []
    modifies stream
    ensures received == Some(response) && stream.bytes == []
  {
    EncodedResponseFits(response);
    DecodeEncode(response);
    var payload := Encode(response);
    var written := stream.WriteFrame(payload);
    FrameRoundTrip(payload, [], 0);
    assert stream.bytes == LittleEndian(|payload|) + payload + [];
    var read := stream.ReadFrame();
    return if read.Ok? then Decode(read.value) else None;
  }
}
