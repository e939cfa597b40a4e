/** A benchmark payload is valid JSON, and what it says. */
module BenchmarkJson {
  import opened Optional
  import opened JsonText
  import B = BenchmarkPayload

  /** ASCII bytes as characters. */
  function Runes(bytes: seq<B.byte>): (s: seq<rune>)
    ensures |s| == |bytes|
  {
    seq(|bytes|, k requires 0 <= k < |bytes| => bytes[k] as int)
  }

  function Chars(text: string): (s: seq<rune>)
    requires forall k :: 0 <= k < |text| ==> text[k] < 128 as char
    ensures |s| == |text|
  {
    seq(|text|, k requires 0 <= k < |text| => text[k] as int)
  }

  function Marks(s: seq<rune>): (ts: seq<Token>)
    ensures |ts| == |s|
  {
    seq(|s|, k requires 0 <= k < |s| => Mark(s[k]))
  }

  // ----- tokens

  lemma {:induction false} TokensOfMarks(marks: seq<rune>, rest: seq<rune>)
    requires Tokens(rest).Some? && forall k :: 0 <= k < |marks| ==> marks[k] != QUOTE && OutsideString(marks[k])
    ensures Tokens(marks + rest) == Some(Marks(marks) + Tokens(rest).value)
  {
    hide DecodeBody;
    if marks == [] {
      assert marks + rest == rest && Marks(marks) + Tokens(rest).value == Tokens(rest).value;
    } else {
      TokensOfMarks(marks[1..], rest);
      assert (marks + rest)[1..] == marks[1..] + rest;
      var ts := Tokens(rest).value;
      assert Marks(marks) + ts == [Mark(marks[0])] + (Marks(marks[1..]) + ts);
    }
  }

  predicate Plain(s: seq<rune>) {
    forall k :: 0 <= k < |s| ==> s[k] >= 0x20 && s[k] != QUOTE && s[k] != BACKSLASH
  }

  lemma {:induction false} BodyOfPlain(text: seq<rune>, rest: seq<rune>)
    requires Plain(text)
    ensures DecodeBody(text + [QUOTE] + rest) == Some(Body(text, rest))
  {
    var s := text + [QUOTE] + rest;
    if text == [] {
      assert s[0] == QUOTE && s[1..] == rest;
    } else {
      BodyOfPlain(text[1..], rest);
      assert s[1..] == text[1..] + [QUOTE] + rest;
      assert [text[0]] + text[1..] == text;
    }
  }

  lemma TokensOfText(text: seq<rune>, rest: seq<rune>)
    requires Plain(text) && Tokens(rest).Some?
    ensures Tokens([QUOTE] + text + [QUOTE] + rest) == Some([Text(text)] + Tokens(rest).value)
  {
    hide DecodeBody;
    BodyOfPlain(text, rest);
    assert ([QUOTE] + text + [QUOTE] + rest)[1..] == text + [QUOTE] + rest;
  }

  // ----- numbers

  lemma {:induction false} NoLeadingZero(n: nat)
    ensures |B.Digits(n)| >= 1 && B.AllDigits(B.Digits(n))
    ensures |B.Digits(n)| > 1 ==> B.Digits(n)[0] != B.ZERO
  {
    if n >= 10 {
      NoLeadingZero(n / 10);
      if n / 10 < 10 {
        assert B.Digits(n / 10) == [B.ZERO + (n / 10) as B.byte];
      }
    }
  }

  lemma {:induction false} DropsAllDigits(s: seq<rune>)
    requires forall k :: 0 <= k < |s| ==> IsDecimalDigit(s[k])
    ensures DropDigits(s) == []
  {
    if s != [] {
      DropsAllDigits(s[1..]);
    }
  }

  /** What strconv.AppendInt writes is a JSON number. */
  lemma DecimalIsNumber(n: int)
    ensures IsNumber(Runes(B.Decimal(n)))
    ensures forall k :: 0 <= k < |Runes(B.Decimal(n))| ==> IsNumberPart(Runes(B.Decimal(n))[k])
  {
    hide B.Digits;
    var m := if n < 0 then -n else n;
    NoLeadingZero(m);
    var digits := Runes(B.Digits(m));
    if n < 0 {
      assert Runes(B.Decimal(n)) == ['-' as int] + digits;
      assert Runes(B.Decimal(n))[1..] == digits;
    }
    DropsAllDigits(digits[1..]);
    DropsAllDigits(digits);
  }

  lemma {:induction false} NumberOfMarks(text: seq<rune>, rest: seq<Token>)
    requires forall k :: 0 <= k < |text| ==> IsNumberPart(text[k])
    requires rest != [] ==> !(rest[0].Mark? && IsNumberPart(rest[0].c))
    ensures NumberParts(Marks(text) + rest) == text
  {
    var ts := Marks(text) + rest;
    if text == [] {
      assert ts == rest;
    } else {
      NumberOfMarks(text[1..], rest);
      assert ts[1..] == Marks(text[1..]) + rest;
      assert [text[0]] + text[1..] == text;
    }
  }

  lemma ValueOfNumber(text: seq<rune>, rest: seq<Token>)
    requires IsNumber(text) && forall k :: 0 <= k < |text| ==> IsNumberPart(text[k])
    requires rest != [] ==> !(rest[0].Mark? && IsNumberPart(rest[0].c))
    ensures ParseValue(Marks(text) + rest) == Some(Parsed(Number(text), rest))
  {
    hide IsNumber, NumberParts;
    var ts := Marks(text) + rest;
    NumberOfMarks(text, rest);
    NumbersAreNotEmpty();
    assert ts[0] == Mark(text[0]) && SkipSpace(ts) == ts;
    assert ts[|text|..] == rest;
  }

  lemma NumbersAreNotEmpty()
    ensures !IsNumber([])
  {
  }

  // ----- the payload

  const TIMESTAMP := Chars("timestamp")
  const PADDING := Chars("padding")
  const OPEN: rune := '{' as int
  const CLOSE: rune := '}' as int
  const COLON: rune := ':' as int
  const COMMA: rune := ',' as int

  function Filler(size: int): seq<rune> {
    seq(if size > 50 then size - 50 else 0, _ => 'x' as int)
  }

  /** The object with the timestamp and the padding. */
  function Message(size: int, timestamp: int): Value {
    Object([Member(TIMESTAMP, Number(Runes(B.Decimal(timestamp)))), Member(PADDING, String(Filler(size)))])
  }

  function PaddingTokens(filler: seq<rune>): seq<Token> {
    [Text(PADDING), Mark(COLON), Text(filler), Mark(CLOSE)]
  }

  function MessageTokens(number: seq<rune>, filler: seq<rune>): seq<Token> {
    [Mark(OPEN), Text(TIMESTAMP), Mark(COLON)] + (Marks(number) + ([Mark(COMMA)] + PaddingTokens(filler)))
  }

  lemma RunesConcat(a: seq<B.byte>, b: seq<B.byte>)
    ensures Runes(a + b) == Runes(a) + Runes(b)
  {
  }

  lemma FixedRunes()
    ensures Runes(B.START) == [OPEN] + ([QUOTE] + TIMESTAMP + [QUOTE]) + [COLON]
    ensures Runes(B.MIDDLE) == [COMMA] + ([QUOTE] + PADDING + [QUOTE]) + [COLON] + [QUOTE]
    ensures Runes(B.END) == [QUOTE] + [CLOSE]
  {
  }

  lemma Regroup(
    open: seq<rune>, name: seq<rune>, colon: seq<rune>, number: seq<rune>, comma: seq<rune>, other: seq<rune>,
    quote: seq<rune>, filler: seq<rune>, close: seq<rune>)
    ensures (open + name + colon) + number + (comma + other + colon + quote) + filler + (quote + close) ==
              open + (name + (colon + (number + (comma + (other + (colon + (quote + filler + quote + close)))))))
  {
  }

  lemma PayloadRunes(size: int, timestamp: int)
    ensures Runes(B.Payload(size, timestamp)) ==
              [OPEN] + ([QUOTE] + TIMESTAMP + [QUOTE] + ([COLON] + (Runes(B.Decimal(timestamp)) +
              ([COMMA] + ([QUOTE] + PADDING + [QUOTE] + ([COLON] + ([QUOTE] + Filler(size) + [QUOTE] + [CLOSE])))))))
  {
    hide B.Decimal, B.START, B.MIDDLE, B.END, B.Padding, Runes, TIMESTAMP, PADDING, Filler;
    var decimal, padding := B.Decimal(timestamp), B.Padding(size);
    FixedRunes();
    FillerRunes(size);
    RunesConcat(B.START, decimal);
    RunesConcat(B.START + decimal, B.MIDDLE);
    RunesConcat(B.START + decimal + B.MIDDLE, padding);
    RunesConcat(B.START + decimal + B.MIDDLE + padding, B.END);
    Regroup([OPEN], [QUOTE] + TIMESTAMP + [QUOTE], [COLON], Runes(decimal), [COMMA],
            [QUOTE] + PADDING + [QUOTE], [QUOTE], Filler(size), [CLOSE]);
  }

  lemma FillerRunes(size: int)
    ensures Runes(B.Padding(size)) == Filler(size)
  {
  }

  lemma PayloadTokens(number: seq<rune>, filler: seq<rune>)
    requires Plain(filler) && forall k :: 0 <= k < |number| ==> IsNumberPart(number[k])
    ensures Tokens([OPEN] + ([QUOTE] + TIMESTAMP + [QUOTE] + ([COLON] + (number +
                   ([COMMA] + ([QUOTE] + PADDING + [QUOTE] + ([COLON] + ([QUOTE] + filler + [QUOTE] + [CLOSE]))))))))
            == Some(MessageTokens(number, filler))
  {
    hide Tokens, TIMESTAMP, PADDING;
    FieldsArePlain();
    TokensOfClose();
    TokensOfText(filler, [CLOSE]);
    var s1 := [QUOTE] + filler + [QUOTE] + [CLOSE];
    assert [Text(filler)] + [Mark(CLOSE)] == [Text(filler), Mark(CLOSE)];
    var s2 := [COLON] + s1;
    TokensAfterMark(COLON, s1);
    assert [Mark(COLON)] + [Text(filler), Mark(CLOSE)] == [Mark(COLON), Text(filler), Mark(CLOSE)];
    var s3 := [QUOTE] + PADDING + [QUOTE] + s2;
    TokensOfText(PADDING, s2);
    assert [Text(PADDING)] + [Mark(COLON), Text(filler), Mark(CLOSE)] == PaddingTokens(filler);
    var s4 := [COMMA] + s3;
    TokensAfterMark(COMMA, s3);
    var s5 := number + s4;
    TokensOfMarks(number, s4);
    var s6 := [COLON] + s5;
    TokensAfterMark(COLON, s5);
    var s7 := [QUOTE] + TIMESTAMP + [QUOTE] + s6;
    TokensOfText(TIMESTAMP, s6);
    TokensAfterMark(OPEN, s7);
    var ts := Marks(number) + ([Mark(COMMA)] + PaddingTokens(filler));
    assert [Mark(OPEN)] + ([Text(TIMESTAMP)] + ([Mark(COLON)] + ts)) == MessageTokens(number, filler);
  }

  lemma FieldsArePlain()
    ensures Plain(TIMESTAMP) && Plain(PADDING)
  {
  }

  lemma TokensAfterMark(mark: rune, rest: seq<rune>)
    requires Tokens(rest).Some? && mark != QUOTE && OutsideString(mark)
    ensures Tokens([mark] + rest) == Some([Mark(mark)] + Tokens(rest).value)
  {
    TokensOfMarks([mark], rest);
    assert Marks([mark]) == [Mark(mark)];
  }

  lemma TokensOfClose()
    ensures Tokens([CLOSE]) == Some([Mark(CLOSE)])
  {
    assert [CLOSE] + [] == [CLOSE];
    TokensOfMarks([CLOSE], []);
    assert Marks([CLOSE]) + [] == [Mark(CLOSE)];
  }

  lemma PaddingMember(filler: seq<rune>)
    ensures ParseMembers(PaddingTokens(filler)) == Some(Parsed([Member(PADDING, String(filler))], []))
  {
    var ts := PaddingTokens(filler);
    assert SkipSpace(ts[1..]) == ts[1..];
    assert ts[1..][1..] == [Text(filler), Mark(CLOSE)];
    assert SkipSpace([Text(filler), Mark(CLOSE)]) == [Text(filler), Mark(CLOSE)];
    assert [Text(filler), Mark(CLOSE)][1..] == [Mark(CLOSE)];
    assert SkipSpace([Mark(CLOSE)]) == [Mark(CLOSE)];
  }

  lemma BothMembers(number: seq<rune>, filler: seq<rune>)
    requires IsNumber(number) && forall k :: 0 <= k < |number| ==> IsNumberPart(number[k])
    ensures ParseMembers(MessageTokens(number, filler)[1..]) ==
              Some(Parsed([Member(TIMESTAMP, Number(number)), Member(PADDING, String(filler))], []))
  {
    hide IsNumber, ParseValue, PaddingTokens;
    var ts := MessageTokens(number, filler)[1..];
    var last := [Mark(COMMA)] + PaddingTokens(filler);
    assert ts[1..] == [Mark(COLON)] + (Marks(number) + last);
    assert SkipSpace(ts[1..]) == ts[1..];
    assert ts[1..][1..] == Marks(number) + last;
    NumbersAreNotEmpty();
    assert SkipSpace(Marks(number) + last) == Marks(number) + last;
    ValueOfNumber(number, last);
    assert SkipSpace(last) == last && last[1..] == PaddingTokens(filler);
    PaddingMember(filler);
    var first, second := Member(TIMESTAMP, Number(number)), Member(PADDING, String(filler));
    assert [first] + [second] == [first, second];
  }

  /** A generated payload is a JSON object with the timestamp as a number, and a padding of the
      right length, for every time and size. */
  lemma PayloadIsJson(size: int, timestamp: int)
    ensures ParseJson(Runes(B.Payload(size, timestamp))) == Some(Message(size, timestamp))
  {
    hide Tokens, B.Payload, IsNumber, ParseMembers, B.Decimal, Filler;
    var number := Runes(B.Decimal(timestamp));
    PayloadRunes(size, timestamp);
    DecimalIsNumber(timestamp);
    assert Plain(Filler(size)) by {
      FillerIsPlain(size);
    }
    PayloadTokens(number, Filler(size));
    BothMembers(number, Filler(size));
    var ts := MessageTokens(number, Filler(size));
    assert SkipSpace(ts) == ts;
    assert ts[1..][0] == Text(TIMESTAMP) && SkipSpace(ts[1..]) == ts[1..];
  }

  lemma FillerIsPlain(size: int)
    ensures Plain(Filler(size))
  {
  }

  /** The scanner also takes a timestamp that ends the object. */
  lemma ClosedTimestamp(timestamp: B.int64, tail: seq<B.byte>)
    requires timestamp >= 0
    ensures B.Timestamp(B.START + B.Decimal(timestamp as int) + B.Bytes("}") + tail) == Some(timestamp as int)
  {
    hide B.START, B.Decimal, B.Timestamp, B.DecimalValue;
    B.DecimalFacts(timestamp);
    var digits := B.Decimal(timestamp as int);
    var rest := B.Bytes("}") + tail;
    assert rest[0] == B.CLOSING_BRACE;
    assert B.START + digits + B.Bytes("}") + tail == B.START + digits + rest;
    assert B.Shape(B.START + digits + rest, digits, rest);
    B.TimestampRecognises(B.START + digits + rest, timestamp as int);
  }
}
