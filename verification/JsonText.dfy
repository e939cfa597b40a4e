/** What a line of JSON means: string contents as RFC 8259 section 7 decodes them, surrogate
    pairs as section 2.2 of RFC 2781 combines them, and values by the grammar of RFC 8259. */
module JsonText {
  import opened Optional

  /** A Unicode code point that is not a surrogate, as a decoded line consists of. */
  type rune = c: int | 0 <= c < 0xD800 || 0xE000 <= c < 0x110000 witness 0

  const QUOTE: rune := '\"' as int
  const BACKSLASH: rune := '\\' as int
  const LETTER_U: rune := 'u' as int
  const NEWLINE: rune := '\n' as int

  // ----- string contents

  predicate IsHighSurrogate(u: int) { 0xD800 <= u < 0xDC00 }

  predicate IsLowSurrogate(u: int) { 0xDC00 <= u < 0xE000 }

  function Combine(high: int, low: int): int {
    0x10000 + (high - 0xD800) * 0x400 + (low - 0xDC00)
  }

  predicate IsHexDigit(c: int) {
    '0' as int <= c <= '9' as int || 'a' as int <= c <= 'f' as int || 'A' as int <= c <= 'F' as int
  }

  function HexDigitValue(c: int): (v: int)
    requires IsHexDigit(c)
    ensures 0 <= v < 16
  {
    if c <= '9' as int then c - '0' as int
    else if c <= 'F' as int then c - 'A' as int + 10
    else c - 'a' as int + 10
  }

  /** s starts with a backslash, a u and four hexadecimal digits. */
  predicate StartsWithUnicodeEscape(s: seq<rune>) {
    && |s| >= 6 && s[0] == BACKSLASH && s[1] == LETTER_U
    && IsHexDigit(s[2]) && IsHexDigit(s[3]) && IsHexDigit(s[4]) && IsHexDigit(s[5])
  }

  function EscapedUnit(s: seq<rune>): (u: int)
    requires StartsWithUnicodeEscape(s)
    ensures 0 <= u < 0x10000
  {
    ((HexDigitValue(s[2]) * 16 + HexDigitValue(s[3])) * 16 + HexDigitValue(s[4])) * 16 + HexDigitValue(s[5])
  }

  /** The escapes of one letter. */
  function SimpleEscape(c: rune): Option<int> {
    if c == QUOTE || c == BACKSLASH || c == '/' as int then Some(c)
    else if c == 'b' as int then Some(0x08)
    else if c == 'f' as int then Some(0x0C)
    else if c == 'n' as int then Some(0x0A)
    else if c == 'r' as int then Some(0x0D)
    else if c == 't' as int then Some(0x09)
    else None
  }

  /** Two escapes that make up one character. */
  predicate StartsWithPair(s: seq<rune>) {
    && StartsWithUnicodeEscape(s) && IsHighSurrogate(EscapedUnit(s))
    && StartsWithLowEscape(s[6..])
  }

  predicate StartsWithLowEscape(s: seq<rune>) {
    StartsWithUnicodeEscape(s) && IsLowSurrogate(EscapedUnit(s))
  }

  datatype Body = Body(content: seq<int>, rest: seq<rune>)

  /** Decodes a string after its opening quote, up to and including the closing one. A surrogate
      that is not part of a pair of escapes stands for itself. */
  function DecodeBody(s: seq<rune>): (b: Option<Body>)
    ensures b.Some? ==> |b.value.rest| < |s|
    decreases |s|
  {
    if s == [] || s[0] < 0x20 then None
    else if s[0] == QUOTE then Some(Body([], s[1..]))
    else if s[0] != BACKSLASH then Prepend(s[0], DecodeBody(s[1..]))
    else if StartsWithPair(s) then Prepend(Combine(EscapedUnit(s), EscapedUnit(s[6..])), DecodeBody(s[12..]))
    else if StartsWithUnicodeEscape(s) then Prepend(EscapedUnit(s), DecodeBody(s[6..]))
    else if |s| >= 2 && SimpleEscape(s[1]).Some? then Prepend(SimpleEscape(s[1]).value, DecodeBody(s[2..]))
    else None
  }

  function Prepend(c: int, b: Option<Body>): Option<Body> {
    match b
    case None => None
    case Some(Body(content, rest)) => Some(Body([c] + content, rest))
  }

  // ----- tokens: strings by their content, everything else character by character

  datatype Token = Text(content: seq<int>) | Mark(c: rune)

  predicate IsWhitespace(c: int) { c == 0x20 || c == 0x09 || c == 0x0A || c == 0x0D }

  predicate IsDecimalDigit(c: int) { '0' as int <= c <= '9' as int }

  predicate IsNumberPart(c: int) {
    IsDecimalDigit(c) || c == '-' as int || c == '+' as int || c == '.' as int || c == 'e' as int || c == 'E' as int
  }

  /** The characters that can stand outside strings. */
  predicate OutsideString(c: int) {
    || IsWhitespace(c) || IsNumberPart(c) || 'a' as int <= c <= 'z' as int
    || c == '{' as int || c == '}' as int || c == '[' as int || c == ']' as int || c == ':' as int || c == ',' as int
  }

  function Tokens(s: seq<rune>): Option<seq<Token>>
    decreases |s|
  {
    if s == [] then Some([])
    else if s[0] == QUOTE then
      var b := DecodeBody(s[1..]);
      if b.None? then None else WithToken(Text(b.value.content), Tokens(b.value.rest))
    else if OutsideString(s[0]) then WithToken(Mark(s[0]), Tokens(s[1..]))
    else None
  }

  function WithToken(t: Token, ts: Option<seq<Token>>): Option<seq<Token>> {
    match ts
    case None => None
    case Some(rest) => Some([t] + rest)
  }

  // ----- values

  datatype Value =
    | Null
    | Boolean(b: bool)
    | Number(text: seq<rune>)
    | String(content: seq<int>)
    | Array(elements: seq<Value>)
    | Object(members: seq<Member>)

  datatype Member = Member(name: seq<int>, value: Value)

  datatype Parsed<T> = Parsed(result: T, rest: seq<Token>)

  function SkipSpace(ts: seq<Token>): (r: seq<Token>)
    ensures |r| <= |ts|
  {
    if ts != [] && ts[0].Mark? && IsWhitespace(ts[0].c) then SkipSpace(ts[1..]) else ts
  }

  predicate StartsWith(ts: seq<Token>, c: char) {
    ts != [] && ts[0].Mark? && ts[0].c == c as int
  }

  predicate StartsWithWord(ts: seq<Token>, word: string) {
    |word| <= |ts| && forall k :: 0 <= k < |word| ==> ts[k].Mark? && ts[k].c == word[k] as int
  }

  function NumberParts(ts: seq<Token>): (text: seq<rune>)
    ensures |text| <= |ts|
  {
    if ts != [] && ts[0].Mark? && IsNumberPart(ts[0].c) then [ts[0].c] + NumberParts(ts[1..]) else []
  }

  function DropDigits(s: seq<rune>): (r: seq<rune>)
    ensures |r| <= |s|
  {
    if s != [] && IsDecimalDigit(s[0]) then DropDigits(s[1..]) else s
  }

  /** At least one digit, and what follows the digits. */
  function SomeDigits(s: seq<rune>): Option<seq<rune>> {
    if s != [] && IsDecimalDigit(s[0]) then Some(DropDigits(s)) else None
  }

  /** An optional minus, an integer without leading zeros, an optional fraction and exponent. */
  predicate IsNumber(s: seq<rune>) {
    var unsigned := if s != [] && s[0] == '-' as int then s[1..] else s;
    var whole := if unsigned != [] && unsigned[0] == '0' as int then Some(unsigned[1..]) else SomeDigits(unsigned);
    whole.Some? && IsFractionAndExponent(whole.value)
  }

  predicate IsFractionAndExponent(s: seq<rune>) {
    if s != [] && s[0] == '.' as int then SomeDigits(s[1..]).Some? && IsExponent(SomeDigits(s[1..]).value)
    else IsExponent(s)
  }

  predicate IsExponent(s: seq<rune>) {
    s == [] ||
    ((s[0] == 'e' as int || s[0] == 'E' as int) &&
     var power := if |s| > 1 && (s[1] == '+' as int || s[1] == '-' as int) then s[2..] else s[1..];
     SomeDigits(power) == Some([]))
  }

  function ParseValue(tokens: seq<Token>): (p: Option<Parsed<Value>>)
    ensures p.Some? ==> |p.value.rest| < |tokens|
    decreases |tokens|, 0
  {
    var ts := SkipSpace(tokens);
    if ts == [] then None
    else if ts[0].Text? then Some(Parsed(String(ts[0].content), ts[1..]))
    else if StartsWithWord(ts, "null") then Some(Parsed(Null, ts[4..]))
    else if StartsWithWord(ts, "true") then Some(Parsed(Boolean(true), ts[4..]))
    else if StartsWithWord(ts, "false") then Some(Parsed(Boolean(false), ts[5..]))
    else if StartsWith(ts, '[') then
      if StartsWith(SkipSpace(ts[1..]), ']') then Some(Parsed(Array([]), SkipSpace(ts[1..])[1..]))
      else
        var p := ParseElements(ts[1..]);
        if p.None? then None else Some(Parsed(Array(p.value.result), p.value.rest))
    else if StartsWith(ts, '{') then
      if StartsWith(SkipSpace(ts[1..]), '}') then Some(Parsed(Object([]), SkipSpace(ts[1..])[1..]))
      else
        var p := ParseMembers(ts[1..]);
        if p.None? then None else Some(Parsed(Object(p.value.result), p.value.rest))
    else
      var text := NumberParts(ts);
      if text != [] && IsNumber(text) then Some(Parsed(Number(text), ts[|text|..])) else None
  }

  /** One or more values separated by commas, up to and including the closing bracket. */
  function ParseElements(tokens: seq<Token>): (p: Option<Parsed<seq<Value>>>)
    ensures p.Some? ==> |p.value.rest| < |tokens|
    decreases |tokens|, 1
  {
    var first := ParseValue(tokens);
    if first.None? then None
    else
      var ts := SkipSpace(first.value.rest);
      if StartsWith(ts, ']') then Some(Parsed([first.value.result], ts[1..]))
      else if StartsWith(ts, ',') then
        var others := ParseElements(ts[1..]);
        if others.None? then None else Some(Parsed([first.value.result] + others.value.result, others.value.rest))
      else None
  }

  /** One or more members separated by commas, up to and including the closing brace. */
  function ParseMembers(tokens: seq<Token>): (p: Option<Parsed<seq<Member>>>)
    ensures p.Some? ==> |p.value.rest| < |tokens|
    decreases |tokens|, 1
  {
    var ts := SkipSpace(tokens);
    if ts == [] || !ts[0].Text? || !StartsWith(SkipSpace(ts[1..]), ':') then None
    else
      var first := ParseValue(SkipSpace(ts[1..])[1..]);
      if first.None? then None
      else
        var member := Member(ts[0].content, first.value.result);
        var after := SkipSpace(first.value.rest);
        if StartsWith(after, '}') then Some(Parsed([member], after[1..]))
        else if StartsWith(after, ',') then
          var others := ParseMembers(after[1..]);
          if others.None? then None else Some(Parsed([member] + others.value.result, others.value.rest))
        else None
  }

  /** The value a whole line stands for, if it is valid JSON. */
  function ParseJson(s: seq<rune>): Option<Value> {
    var ts := Tokens(s);
    if ts.None? then None
    else
      var p := ParseValue(ts.value);
      if p.Some? && SkipSpace(p.value.rest) == [] then Some(p.value.result) else None
  }
}
