/** The rewriting that makes a line of JSON safe to print. unicode.IsPrint is a parameter, of
    which only its answers for ASCII are known. */
module EscapeUnprintable {
  import opened Optional
  import opened JsonText

  ghost predicate PrintRule(isPrint: int -> bool) {
    && (forall c :: 0x20 <= c < 0x7F ==> isPrint(c))
    && (forall c :: 0 <= c < 0x20 || c == 0x7F ==> !isPrint(c))
  }

  /** What encoding/json writes: no raw control character other than the newline at the end. */
  ghost predicate EncodedLine(line: seq<rune>) {
    line != [] && line[|line| - 1] == NEWLINE && forall k :: 0 <= k < |line| - 1 ==> line[k] >= 0x20
  }

  function HexDigit(v: int): (c: rune)
    requires 0 <= v < 16
    ensures IsHexDigit(c) && HexDigitValue(c) == v && c != BACKSLASH && 0x20 <= c < 0x7F
  {
    if v < 10 then '0' as int + v else 'a' as int + v - 10
  }

  /** The format \u%04x. */
  function UnitEscape(u: int): (s: seq<rune>)
    requires 0 <= u < 0x10000
    ensures |s| == 6 && StartsWithUnicodeEscape(s)
    ensures forall k :: 0 <= k < 6 ==> 0x20 <= s[k] < 0x7F
  {
    [BACKSLASH, LETTER_U, HexDigit(u / 0x1000), HexDigit(u / 0x100 % 16), HexDigit(u / 16 % 16), HexDigit(u % 16)]
  }

  lemma UnitReadsBack(u: int)
    requires 0 <= u < 0x10000
    ensures EscapedUnit(UnitEscape(u)) == u
  {
    hide HexDigit, HexDigitValue;
    assert u / 16 / 16 == u / 0x100 && u / 0x100 / 16 == u / 0x1000;
  }

  /** An escape is recognised, with its unit, whatever follows it. */
  lemma EscapeBefore(a: seq<rune>, rest: seq<rune>)
    requires |a| == 6 && StartsWithUnicodeEscape(a)
    ensures StartsWithUnicodeEscape(a + rest) && EscapedUnit(a + rest) == EscapedUnit(a)
    ensures (a + rest)[6..] == rest && (a + rest)[0] == BACKSLASH
  {
    hide HexDigitValue;
  }

  /** utf16.EncodeRune. */
  function HighSurrogate(c: int): int { 0xD800 + (c - 0x10000) / 0x400 }

  function LowSurrogate(c: int): int { 0xDC00 + (c - 0x10000) % 0x400 }

  function UnicodeEscape(c: rune): seq<rune> {
    if c > 0xFFFF then UnitEscape(HighSurrogate(c)) + UnitEscape(LowSurrogate(c)) else UnitEscape(c)
  }

  function EscapeOne(isPrint: int -> bool, c: rune): seq<rune> {
    if c == NEWLINE || isPrint(c) then [c] else UnicodeEscape(c)
  }

  /** Every character of the line escaped on its own. */
  function Escaped(isPrint: int -> bool, line: seq<rune>): seq<rune> {
    if line == [] then [] else EscapeOne(isPrint, line[0]) + Escaped(isPrint, line[1..])
  }

  // ----- the implementation

  method AppendUnicodeEscape(escaped: seq<rune>, character: rune) returns (r: seq<rune>)
    ensures r == escaped + UnicodeEscape(character)
  {
    if character > 0xFFFF {
      r := escaped + UnitEscape(HighSurrogate(character));
      r := r + UnitEscape(LowSurrogate(character));
      return;
    }
    r := escaped + UnitEscape(character);
  }

  predicate OnlyBelowDel(line: seq<rune>) { forall k :: 0 <= k < |line| ==> line[k] < 0x7F }

  /** The fast path gives what the slow one would on every line that encoding/json writes. */
  method EscapeLine(isPrint: int -> bool, line: seq<rune>) returns (r: seq<rune>)
    ensures r == if OnlyBelowDel(line) then line else Escaped(isPrint, line)
    ensures PrintRule(isPrint) && EncodedLine(line) ==> r == Escaped(isPrint, line)
  {
    hide PrintRule, EncodedLine, UnicodeEscape, Escaped;
    var k := 0;
    while k < |line| && line[k] < 0x7F
      invariant 0 <= k <= |line| && forall j :: 0 <= j < k ==> line[j] < 0x7F
    {
      k := k + 1;
    }
    if k == |line| {
      FastPathIsRight(isPrint, line);
      return line;
    }
    r := [];
    EscapedNothing(isPrint);
    for i := 0 to |line|
      invariant r == Escaped(isPrint, line[..i])
    {
      EscapedAppend(isPrint, line[..i], line[i]);
      assert line[..i + 1] == line[..i] + [line[i]];
      if line[i] == NEWLINE || isPrint(line[i]) {
        r := r + [line[i]];
      } else {
        r := AppendUnicodeEscape(r, line[i]);
      }
    }
    assert line[..|line|] == line;
  }

  lemma EscapedNothing(isPrint: int -> bool)
    ensures Escaped(isPrint, []) == []
  {
  }

  lemma FastPathIsRight(isPrint: int -> bool, line: seq<rune>)
    requires OnlyBelowDel(line)
    ensures PrintRule(isPrint) && EncodedLine(line) ==> line == Escaped(isPrint, line)
  {
    if PrintRule(isPrint) && EncodedLine(line) {
      FastPathIsRightExactly(isPrint, line);
    }
  }

  lemma {:induction false} EscapedAppend(isPrint: int -> bool, s: seq<rune>, c: rune)
    ensures Escaped(isPrint, s + [c]) == Escaped(isPrint, s) + EscapeOne(isPrint, c)
  {
    if s != [] {
      assert (s + [c])[1..] == s[1..] + [c];
      EscapedAppend(isPrint, s[1..], c);
    } else {
      assert Escaped(isPrint, []) == [];
      assert (s + [c])[1..] == [];
    }
  }

  /** On a line without DEL or non-ASCII characters, returning it unchanged is right exactly if
      it has no control character besides newlines. */
  lemma {:induction false} FastPathIsRightExactly(isPrint: int -> bool, line: seq<rune>)
    requires PrintRule(isPrint) && OnlyBelowDel(line)
    ensures Escaped(isPrint, line) == line <==> forall k :: 0 <= k < |line| ==> line[k] >= 0x20 || line[k] == NEWLINE
  {
    if line != [] {
      FastPathIsRightExactly(isPrint, line[1..]);
      EscapedIsLonger(isPrint, line[1..]);
      if line[0] >= 0x20 || line[0] == NEWLINE {
        assert EscapeOne(isPrint, line[0]) == [line[0]];
        assert Escaped(isPrint, line)[1..] == Escaped(isPrint, line[1..]);
        assert line == [line[0]] + line[1..];
      }
    }
  }

  lemma {:induction false} EscapedIsLonger(isPrint: int -> bool, line: seq<rune>)
    ensures |Escaped(isPrint, line)| >= |line|
  {
    if line != [] {
      EscapedIsLonger(isPrint, line[1..]);
    }
  }

  /** Nothing that a terminal could act on is left: the result is one line of printable
      characters. */
  lemma {:induction false} OnlyPrintable(isPrint: int -> bool, line: seq<rune>)
    requires PrintRule(isPrint)
    ensures forall k :: 0 <= k < |Escaped(isPrint, line)| ==>
              Escaped(isPrint, line)[k] == NEWLINE || isPrint(Escaped(isPrint, line)[k])
  {
    if line != [] {
      OnlyPrintable(isPrint, line[1..]);
    }
  }

  /** Escaping an escaped line changes nothing. */
  lemma {:induction false} EscapedTwice(isPrint: int -> bool, line: seq<rune>)
    requires forall k :: 0 <= k < |line| ==> line[k] == NEWLINE || isPrint(line[k])
    ensures Escaped(isPrint, line) == line
  {
    if line != [] {
      EscapedTwice(isPrint, line[1..]);
    }
  }

  // ----- meaning

  /** Characters that are written as themselves. */
  predicate Kept(isPrint: int -> bool, c: rune) { c == NEWLINE || isPrint(c) }

  lemma {:induction false} KeptPrefix(isPrint: int -> bool, s: seq<rune>, n: nat)
    requires n <= |s| && forall k :: 0 <= k < n ==> Kept(isPrint, s[k])
    ensures Escaped(isPrint, s) == s[..n] + Escaped(isPrint, s[n..])
  {
    hide UnicodeEscape;
    if n > 0 {
      var t := s[1..];
      KeptPrefix(isPrint, t, n - 1);
      assert EscapeOne(isPrint, s[0]) == [s[0]];
      assert t[n - 1..] == s[n..];
      assert s[..n] == [s[0]] + t[..n - 1];
    } else {
      assert s[0..] == s;
    }
  }

  /** What does not start with a backslash in the result was there before. */
  lemma {:induction false} PlainPrefix(isPrint: int -> bool, s: seq<rune>, n: nat)
    requires n <= |Escaped(isPrint, s)| && forall k :: 0 <= k < n ==> Escaped(isPrint, s)[k] != BACKSLASH
    ensures n <= |s| && s[..n] == Escaped(isPrint, s)[..n]
  {
    hide UnitEscape, HighSurrogate, LowSurrogate;
    if n > 0 {
      assert EscapeOne(isPrint, s[0])[0] == Escaped(isPrint, s)[0];
      assert Kept(isPrint, s[0]);
      assert Escaped(isPrint, s)[1..] == Escaped(isPrint, s[1..]);
      PlainPrefix(isPrint, s[1..], n - 1);
      assert s[..n] == [s[0]] + s[1..][..n - 1];
    }
  }

  /** An escaped rest starts with an escape of a low surrogate exactly if the rest did: an
      inserted escape never starts with one. So a dangling high surrogate stays dangling. */
  lemma LowEscapeKept(isPrint: int -> bool, s: seq<rune>)
    requires PrintRule(isPrint)
    ensures StartsWithLowEscape(Escaped(isPrint, s)) <==> StartsWithLowEscape(s)
  {
    hide Escaped, HexDigitValue;
    var e := Escaped(isPrint, s);
    if StartsWithLowEscape(s) {
      KeptPrefix(isPrint, s, 6);
    }
    if StartsWithLowEscape(e) {
      FirstIsKept(isPrint, s);
      KeptPrefix(isPrint, s, 1);
      assert e[1..] == Escaped(isPrint, s[1..]);
      PlainPrefix(isPrint, s[1..], 5);
      assert s[1..][..5] == e[1..][..5];
      assert forall k :: 1 <= k < 6 ==> s[k] == s[1..][..5][k - 1];
    }
  }

  /** The escape of a character is never that of a low surrogate. */
  lemma InsertedIsNotLow(c: rune, rest: seq<rune>)
    ensures !StartsWithLowEscape(UnicodeEscape(c) + rest)
  {
    hide HexDigitValue, UnitEscape, EscapedUnit, StartsWithUnicodeEscape;
    if c > 0xFFFF {
      var high, low := UnitEscape(HighSurrogate(c)), UnitEscape(LowSurrogate(c));
      assert UnicodeEscape(c) + rest == high + (low + rest);
      UnitReadsBack(HighSurrogate(c));
      EscapeBefore(high, low + rest);
    } else {
      UnitReadsBack(c);
      EscapeBefore(UnitEscape(c), rest);
    }
  }

  lemma FirstIsKept(isPrint: int -> bool, s: seq<rune>)
    requires PrintRule(isPrint) && StartsWithLowEscape(Escaped(isPrint, s))
    ensures s != [] && Kept(isPrint, s[0])
  {
    hide StartsWithLowEscape, UnicodeEscape;
    NoEscapeInNothing();
    if s != [] && !Kept(isPrint, s[0]) {
      InsertedIsNotLow(s[0], Escaped(isPrint, s[1..]));
    }
  }

  lemma NoEscapeInNothing()
    ensures !StartsWithLowEscape([])
  {
  }

  /** An inserted escape decodes to the character it replaces. */
  lemma InsertedEscapeDecodes(c: rune, rest: seq<rune>)
    requires c >= 0x20
    ensures DecodeBody(UnicodeEscape(c) + rest) == Prepend(c, DecodeBody(rest))
  {
    hide HexDigitValue, UnitEscape, EscapedUnit, StartsWithUnicodeEscape;
    if c > 0xFFFF {
      var high, low := UnitEscape(HighSurrogate(c)), UnitEscape(LowSurrogate(c));
      UnitReadsBack(HighSurrogate(c));
      UnitReadsBack(LowSurrogate(c));
      EscapeBefore(high, low + rest);
      EscapeBefore(low, rest);
      var s := high + (low + rest);
      assert UnicodeEscape(c) + rest == s;
      assert s[12..] == s[6..][6..];
      assert StartsWithPair(s);
      assert Combine(HighSurrogate(c), LowSurrogate(c)) == c;
    } else {
      UnitReadsBack(c);
      EscapeBefore(UnitEscape(c), rest);
    }
  }

  function EscapeBody(isPrint: int -> bool, b: Option<Body>): Option<Body> {
    match b
    case None => None
    case Some(Body(content, rest)) => Some(Body(content, Escaped(isPrint, rest)))
  }

  /** A string keeps its content, and what follows it is escaped too. */
  lemma {:induction false} BodyKept(isPrint: int -> bool, s: seq<rune>)
    requires PrintRule(isPrint) && DecodeBody(s).Some?
    ensures DecodeBody(Escaped(isPrint, s)) == EscapeBody(isPrint, DecodeBody(s))
    decreases |s|
  {
    hide HexDigitValue, EscapedUnit, UnicodeEscape;
    if s[0] == QUOTE {
      KeptPrefix(isPrint, s, 1);
    } else if s[0] != BACKSLASH {
      hide Escaped;
      BodyKept(isPrint, s[1..]);
      PlainCharacterKept(isPrint, s);
    } else if StartsWithUnicodeEscape(s) {
      hide DecodeBody;
      UnicodeEscapeKept(isPrint, s);
    } else {
      hide Escaped;
      var e := Escaped(isPrint, s);
      BodyKept(isPrint, s[2..]);
      KeptPrefix(isPrint, s, 2);
      assert e[2..] == Escaped(isPrint, s[2..]);
    }
  }

  lemma PlainCharacterKept(isPrint: int -> bool, s: seq<rune>)
    requires PrintRule(isPrint) && DecodeBody(s).Some? && s[0] != BACKSLASH && s[0] != QUOTE
    requires DecodeBody(s[1..]).Some? ==>
               DecodeBody(Escaped(isPrint, s[1..])) == EscapeBody(isPrint, DecodeBody(s[1..]))
    ensures DecodeBody(Escaped(isPrint, s)) == EscapeBody(isPrint, DecodeBody(s))
  {
    hide HexDigitValue, EscapedUnit, UnicodeEscape;
    if Kept(isPrint, s[0]) {
      KeptPrefix(isPrint, s, 1);
      assert Escaped(isPrint, s)[1..] == Escaped(isPrint, s[1..]);
    } else {
      InsertedEscapeDecodes(s[0], Escaped(isPrint, s[1..]));
    }
  }

  lemma SameEscape(s: seq<rune>, t: seq<rune>)
    requires StartsWithUnicodeEscape(s) && |t| >= 6 && t[..6] == s[..6]
    ensures StartsWithUnicodeEscape(t) && EscapedUnit(t) == EscapedUnit(s)
  {
    hide HexDigitValue;
    assert forall k :: 0 <= k < 6 ==> t[..6][k] == t[k] && s[..6][k] == s[k];
  }

  lemma UnicodeEscapeKept(isPrint: int -> bool, s: seq<rune>)
    requires PrintRule(isPrint) && DecodeBody(s).Some? && StartsWithUnicodeEscape(s)
    ensures DecodeBody(Escaped(isPrint, s)) == EscapeBody(isPrint, DecodeBody(s))
    decreases |s|, 0
  {
    hide Escaped, HexDigitValue, EscapedUnit;
    var e := Escaped(isPrint, s);
    KeptPrefix(isPrint, s, 6);
    assert e[6..] == Escaped(isPrint, s[6..]);
    SameEscape(s, e);
    LowEscapeKept(isPrint, s[6..]);
    if StartsWithPair(s) {
      KeptPrefix(isPrint, s[6..], 6);
      assert s[6..][6..] == s[12..] && e[12..] == Escaped(isPrint, s[12..]);
      SameEscape(s[6..], e[6..]);
      BodyKept(isPrint, s[12..]);
    } else {
      BodyKept(isPrint, s[6..]);
    }
  }

  /** The tokens of a line, strings with their decoded content, are not changed. */
  lemma {:induction false} TokensKept(isPrint: int -> bool, s: seq<rune>)
    requires PrintRule(isPrint) && Tokens(s).Some?
    requires forall k :: 0 <= k < |s| ==> s[k] >= 0x20 || s[k] == NEWLINE
    ensures Tokens(Escaped(isPrint, s)) == Tokens(s)
    decreases |s|
  {
    hide DecodeBody;
    if s != [] {
      KeptPrefix(isPrint, s, 1);
      var e := Escaped(isPrint, s);
      assert e[0] == s[0] && e[1..] == Escaped(isPrint, s[1..]);
      if s[0] == QUOTE {
        BodyKept(isPrint, s[1..]);
        var rest := DecodeBody(s[1..]).value.rest;
        RestIsSuffix(s[1..]);
        TokensKept(isPrint, rest);
      } else {
        TokensKept(isPrint, s[1..]);
      }
    }
  }

  lemma {:induction false} RestIsSuffix(s: seq<rune>)
    requires DecodeBody(s).Some?
    ensures DecodeBody(s).value.rest == s[|s| - |DecodeBody(s).value.rest|..]
    decreases |s|
  {
    if s[0] != QUOTE {
      var t := if s[0] != BACKSLASH then s[1..]
               else if StartsWithPair(s) then s[12..]
               else if StartsWithUnicodeEscape(s) then s[6..]
               else s[2..];
      RestIsSuffix(t);
      assert DecodeBody(s).value.rest == DecodeBody(t).value.rest;
    }
  }

  lemma {:induction false} NoNewlineAdded(isPrint: int -> bool, s: seq<rune>)
    requires forall k :: 0 <= k < |s| ==> s[k] != NEWLINE
    ensures forall k :: 0 <= k < |Escaped(isPrint, s)| ==> Escaped(isPrint, s)[k] != NEWLINE
  {
    if s != [] {
      NoNewlineAdded(isPrint, s[1..]);
    }
  }

  lemma StaysOneLine(isPrint: int -> bool, line: seq<rune>)
    requires EncodedLine(line)
    ensures var e := Escaped(isPrint, line);
            && |e| > 0 && e[|e| - 1] == NEWLINE
            && forall k :: 0 <= k < |e| - 1 ==> e[k] != NEWLINE
  {
    var body := line[..|line| - 1];
    assert line == body + [NEWLINE];
    EscapedAppend(isPrint, body, NEWLINE);
    NoNewlineAdded(isPrint, body);
  }

  /** Rewriting a line that encoding/json has written leaves it valid JSON with the same value:
      same structure, same numbers, same string contents character by character, lone surrogates
      included. It leaves one line of printable characters, and doing it again changes nothing. */
  lemma EscapedLineKeepsMeaning(isPrint: int -> bool, line: seq<rune>)
    requires PrintRule(isPrint) && EncodedLine(line) && ParseJson(line).Some?
    ensures ParseJson(Escaped(isPrint, line)) == ParseJson(line)
    ensures var e := Escaped(isPrint, line);
            && |e| > 0 && e[|e| - 1] == NEWLINE
            && (forall k :: 0 <= k < |e| - 1 ==> isPrint(e[k]))
            && Escaped(isPrint, e) == e
  {
    hide Escaped, ParseValue, Tokens;
    StaysOneLine(isPrint, line);
    TokensKept(isPrint, line);
    OnlyPrintable(isPrint, line);
    EscapedTwice(isPrint, Escaped(isPrint, line));
  }
}
