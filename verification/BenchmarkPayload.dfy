/** The benchmark payload: the hand-written printer, the hand-written scanner that reads the
    timestamp back, and what each of them accepts and produces. */
module BenchmarkPayload {
  import opened Optional

  newtype byte = x: int | 0 <= x < 256
  newtype uint64 = x: int | 0 <= x < 0x1_0000_0000_0000_0000
  newtype int64 = x: int | -0x8000_0000_0000_0000 <= x < 0x8000_0000_0000_0000

  const MAX_INT64 := 0x7FFF_FFFF_FFFF_FFFF
  const MAX_DIGITS := 19

  /** The bytes of an ASCII text. */
  function Bytes(text: string): (b: seq<byte>)
    requires forall k :: 0 <= k < |text| ==> text[k] < 128 as char
    ensures |b| == |text|
  {
    seq(|text|, k requires 0 <= k < |text| => text[k] as byte)
  }

  const START := Bytes("{\"timestamp\":")
  const MIDDLE := Bytes(",\"padding\":\"")
  const END := Bytes("\"}")
  const COMMA: byte := ',' as byte
  const CLOSING_BRACE: byte := '}' as byte
  const ZERO: byte := '0' as byte

  // ----- decimal numbers

  predicate IsDigit(b: byte) { ZERO <= b <= ZERO + 9 }

  predicate AllDigits(s: seq<byte>) { forall k :: 0 <= k < |s| ==> IsDigit(s[k]) }

  function DecimalValue(digits: seq<byte>): nat
    requires AllDigits(digits)
  {
    if digits == [] then 0
    else 10 * DecimalValue(digits[..|digits| - 1]) + (digits[|digits| - 1] - ZERO) as int
  }

  function Digits(n: nat): seq<byte> {
    if n < 10 then [ZERO + n as byte] else Digits(n / 10) + [ZERO + (n % 10) as byte]
  }

  /** What strconv.AppendInt appends. */
  function Decimal(n: int): seq<byte> {
    if n < 0 then ['-' as byte] + Digits(-n) else Digits(n)
  }

  function Pow10(k: nat): nat { if k == 0 then 1 else 10 * Pow10(k - 1) }

  lemma {:induction false} DigitsReadBack(n: nat)
    ensures |Digits(n)| >= 1 && AllDigits(Digits(n)) && DecimalValue(Digits(n)) == n
  {
    if n >= 10 {
      DigitsReadBack(n / 10);
      assert Digits(n)[..|Digits(n)| - 1] == Digits(n / 10);
    }
  }

  lemma {:induction false} DigitsAreFew(n: nat, k: nat)
    requires n < Pow10(k) && k >= 1
    ensures |Digits(n)| <= k
  {
    if n >= 10 {
      DigitsAreFew(n / 10, k - 1);
    }
  }

  lemma {:induction false} ValueIsBounded(digits: seq<byte>)
    requires AllDigits(digits)
    ensures DecimalValue(digits) < Pow10(|digits|)
  {
    if digits != [] {
      ValueIsBounded(digits[..|digits| - 1]);
    }
  }

  lemma {:induction false} Pow10Monotone(j: nat, k: nat)
    requires j <= k
    ensures Pow10(j) <= Pow10(k)
  {
    if j < k {
      Pow10Monotone(j, k - 1);
    }
  }

  lemma Pow10Of19()
    ensures Pow10(MAX_DIGITS) == 10_000_000_000_000_000_000
  {
    assert Pow10(4) == 10_000;
    assert Pow10(8) == 100_000_000;
    assert Pow10(12) == 1_000_000_000_000;
    assert Pow10(16) == 10_000_000_000_000_000;
  }

  // ----- the printer

  function Padding(size: int): seq<byte> {
    seq(if size - 50 < 0 then 0 else size - 50, _ => 'x' as byte)
  }

  /** The frozen format of a benchmark payload. */
  function Payload(size: int, timestamp: int): seq<byte> {
    START + Decimal(timestamp) + MIDDLE + Padding(size) + END
  }

  /** A byte slice with a fixed capacity; appending never moves it to a larger one. */
  class Slice {
    const data: array<byte>
    var length: nat

    ghost predicate Valid()
      reads this
    {
      length <= data.Length
    }

    function Contents(): seq<byte>
      reads this, data
      requires Valid()
    {
      data[..length]
    }

    constructor (capacity: nat)
      ensures Valid() && fresh(data) && data.Length == capacity && Contents() == []
    {
      data := new byte[capacity];
      length := 0;
    }

    method Append(bytes: seq<byte>)
      requires Valid() && length + |bytes| <= data.Length
      modifies this, data
      ensures Valid() && Contents() == old(Contents()) + bytes
    {
      for k := 0 to |bytes|
        invariant length == old(length)
        invariant data[..length + k] == old(Contents()) + bytes[..k]
      {
        data[length + k] := bytes[k];
      }
      length := length + |bytes|;
      assert bytes[..|bytes|] == bytes;
    }
  }

  /** An int64 in decimal takes between 1 and 20 bytes. A non-negative one is at most 19 digits
      that read back as it; a negative one starts with a sign. */
  lemma DecimalFacts(timestamp: int64)
    ensures 1 <= |Decimal(timestamp as int)| <= 20
    ensures timestamp >= 0 ==> |Decimal(timestamp as int)| <= 19
    ensures timestamp >= 0 ==>
              AllDigits(Decimal(timestamp as int)) && DecimalValue(Decimal(timestamp as int)) == timestamp as int
    ensures timestamp < 0 ==> !IsDigit(Decimal(timestamp as int)[0])
  {
    var n := if timestamp < 0 then -(timestamp as int) else timestamp as int;
    Pow10Of19();
    DigitsAreFew(n, MAX_DIGITS);
    DigitsReadBack(n);
  }

  /** Builds one payload. The reserved capacity is never exceeded, whatever the time is. */
  method GeneratePayload(size: int, timestamp: int64) returns (payload: Slice)
    ensures fresh(payload) && payload.Valid() && payload.Contents() == Payload(size, timestamp as int)
  {
    hide START, MIDDLE, END, Decimal, Padding;
    var padding := Padding(size);
    var capacity := |START| + 20 + |MIDDLE| + |padding| + |END|;
    DecimalFacts(timestamp);
    payload := new Slice(capacity);
    payload.Append(START);
    payload.Append(Decimal(timestamp as int));
    payload.Append(MIDDLE);
    payload.Append(padding);
    payload.Append(END);
    assert payload.Contents() == [] + START + Decimal(timestamp as int) + MIDDLE + padding + END;
  }

  /** The length of a payload. From 50 bytes on it is 3 to 22 bytes less than the size asked
      for; it is that size only if the fixed text and the digits alone come to it. */
  lemma PayloadLength(size: int, timestamp: int64)
    ensures |Payload(size, timestamp as int)| ==
              27 + |Decimal(timestamp as int)| + (if size > 50 then size - 50 else 0)
    ensures size >= 50 ==> size - 22 <= |Payload(size, timestamp as int)| <= size - 3
    ensures |Payload(size, timestamp as int)| == size <==> size == 27 + |Decimal(timestamp as int)|
    ensures size < 50 ==> 28 <= |Payload(size, timestamp as int)| <= 47
  {
    DecimalFacts(timestamp);
  }

  // ----- the scanner

  predicate EndsTimestamp(b: byte) { b == COMMA || b == CLOSING_BRACE }

  /** The payload is the prefix, 1 to 19 digits that stand for a value an int64 can hold, then a
      comma or a closing brace, then anything. */
  ghost predicate HoldsTimestamp(payload: seq<byte>, v: int) {
    exists digits, tail :: Shape(payload, digits, tail) && DecimalValue(digits) == v <= MAX_INT64
  }

  ghost predicate Shape(payload: seq<byte>, digits: seq<byte>, tail: seq<byte>) {
    && payload == START + digits + tail
    && 1 <= |digits| <= MAX_DIGITS && AllDigits(digits)
    && tail != [] && EndsTimestamp(tail[0])
  }

  function LeadingDigits(s: seq<byte>): (n: nat)
    ensures n <= |s| && AllDigits(s[..n]) && (n < |s| ==> !IsDigit(s[n]))
  {
    if s == [] || !IsDigit(s[0]) then 0
    else
      var n := LeadingDigits(s[1..]);
      assert forall k :: 0 < k < n + 1 ==> s[k] == s[1..][k - 1];
      n + 1
  }

  /** The timestamp of a payload, if it holds one. */
  function Timestamp(payload: seq<byte>): Option<int> {
    if !(START <= payload) then None
    else
      var rest := payload[|START|..];
      var n := LeadingDigits(rest);
      if 1 <= n <= MAX_DIGITS && n < |rest| && EndsTimestamp(rest[n]) && DecimalValue(rest[..n]) <= MAX_INT64
      then Some(DecimalValue(rest[..n]))
      else None
  }

  lemma LeadingDigitsUnique(s: seq<byte>, n: nat)
    requires n <= |s| && AllDigits(s[..n])
    ensures n <= LeadingDigits(s)
    ensures n < |s| && !IsDigit(s[n]) ==> n == LeadingDigits(s)
  {
    hide LeadingDigits;
    var m := LeadingDigits(s);
    if n < m && n < |s| {
      assert IsDigit(s[..m][n]);
    }
  }

  /** Timestamp recognises exactly the payloads of that shape, and with their value. */
  lemma TimestampRecognises(payload: seq<byte>, v: int)
    ensures Timestamp(payload) == Some(v) <==> HoldsTimestamp(payload, v)
  {
    if Timestamp(payload) == Some(v) {
      var rest := payload[|START|..];
      var n := LeadingDigits(rest);
      assert payload == START + rest[..n] + rest[n..];
      assert Shape(payload, rest[..n], rest[n..]);
    }
    if HoldsTimestamp(payload, v) {
      var digits, tail :| Shape(payload, digits, tail) && DecimalValue(digits) == v <= MAX_INT64;
      var rest := payload[|START|..];
      assert rest == digits + tail;
      assert rest[..|digits|] == digits && rest[|digits|] == tail[0];
      LeadingDigitsUnique(rest, |digits|);
    }
  }

  lemma RecognisesAll(payload: seq<byte>)
    ensures forall v :: HoldsTimestamp(payload, v) <==> Timestamp(payload) == Some(v)
  {
    hide HoldsTimestamp, Timestamp;
    forall v ensures HoldsTimestamp(payload, v) <==> Timestamp(payload) == Some(v) {
      TimestampRecognises(payload, v);
    }
  }

  /** One more digit, and still less than 10^19. */
  lemma OneMoreDigit(s: seq<byte>, k: nat)
    requires k < |s| && k < MAX_DIGITS && AllDigits(s[..k]) && IsDigit(s[k])
    ensures AllDigits(s[..k + 1])
    ensures DecimalValue(s[..k + 1]) == 10 * DecimalValue(s[..k]) + (s[k] - ZERO) as int
    ensures DecimalValue(s[..k + 1]) < 10_000_000_000_000_000_000
  {
    assert s[..k + 1][..k] == s[..k];
    ValueIsBounded(s[..k + 1]);
    Pow10Monotone(k + 1, MAX_DIGITS);
    Pow10Of19();
  }

  /** The scan of a received payload. The accumulator is a uint64 and never wraps around. */
  method BenchmarkTimestamp(payload: seq<byte>) returns (timestamp: int64, ok: bool)
    ensures ok ==> HoldsTimestamp(payload, timestamp as int)
    ensures !ok ==> timestamp == 0 && forall v :: !HoldsTimestamp(payload, v)
    ensures Timestamp(payload) == if ok then Some(timestamp as int) else None
  {
    hide START, DecimalValue, LeadingDigits, HoldsTimestamp;
    RecognisesAll(payload);
    if |payload| < |START| || payload[..|START|] != START {
      return 0, false;
    }
    var rest := payload[|START|..];
    var value: uint64 := 0;
    var digitCount := 0;
    NothingIsZero();
    for k := 0 to |rest|
      invariant digitCount == k <= MAX_DIGITS
      invariant AllDigits(rest[..k]) && value as int == DecimalValue(rest[..k])
    {
      var character := rest[k];
      LeadingDigitsUnique(rest, k);
      if IsDigit(character) {
        digitCount := digitCount + 1;
        if digitCount > MAX_DIGITS {
          LeadingDigitsUnique(rest, k + 1);
          return 0, false;
        }
        OneMoreDigit(rest, k);
        value := value * 10 + (character - ZERO) as uint64;
        continue;
      }
      if !EndsTimestamp(character) || digitCount == 0 || value as int > MAX_INT64 {
        return 0, false;
      }
      return value as int64, true;
    }
    LeadingDigitsUnique(rest, |rest|);
    return 0, false;
  }

  lemma NothingIsZero()
    ensures DecimalValue([]) == 0
  {
  }

  /** Scanning undoes printing: for every size, a printed timestamp is read back, and a time
      before 1970 is recognised as no timestamp. */
  lemma PrinterAndScannerAgree(size: int, timestamp: int64)
    ensures Timestamp(Payload(size, timestamp as int)) == if timestamp >= 0 then Some(timestamp as int) else None
  {
    hide START, END, Decimal, Padding, DecimalValue, LeadingDigits;
    var payload, tail := Payload(size, timestamp as int), MIDDLE + Padding(size) + END;
    DecimalFacts(timestamp);
    if timestamp >= 0 {
      assert MIDDLE[0] == COMMA && tail[0] == MIDDLE[0];
      assert payload == START + Decimal(timestamp as int) + tail;
      assert Shape(payload, Decimal(timestamp as int), tail);
      TimestampRecognises(payload, timestamp as int);
    } else {
      var rest := payload[|START|..];
      assert rest == Decimal(timestamp as int) + tail;
      LeadingDigitsUnique(rest, 0);
    }
  }
}
