// Unpadded base64 (RFC 4648, sections 3.2 and 4) as Go's strict decoder reads
// it, and unsigned decimal numbers as strconv prints and parses them.

module Base64 {
  import opened Common

  type Byte = b: int | 0 <= b < 256

  /** The symbol of a six-bit value. */
  function Symbol(v: int): char
    requires 0 <= v < 64
  {
    if v < 26 then 'A' + v as char
    else if v < 52 then 'a' + (v - 26) as char
    else if v < 62 then '0' + (v - 52) as char
    else if v == 62 then '+' else '/'
  }

  function Value(c: char): (v: Option<int>)
    ensures v.Some? ==> 0 <= v.value < 64 && Symbol(v.value) == c
  {
    if 'A' <= c <= 'Z' then Some(c as int - 'A' as int)
    else if 'a' <= c <= 'z' then Some(c as int - 'a' as int + 26)
    else if '0' <= c <= '9' then Some(c as int - '0' as int + 52)
    else if c == '+' then Some(62)
    else if c == '/' then Some(63)
    else None
  }

  lemma ValueOfSymbol(v: int)
    requires 0 <= v < 64
    ensures Value(Symbol(v)) == Some(v)
  {
  }

  function Encode(b: seq<Byte>): string {
    if |b| == 0 then ""
    else if |b| == 1 then [Symbol(b[0] / 4), Symbol(b[0] % 4 * 16)]
    else if |b| == 2 then [Symbol(b[0] / 4), Symbol(b[0] % 4 * 16 + b[1] / 16), Symbol(b[1] % 16 * 4)]
    else [Symbol(b[0] / 4), Symbol(b[0] % 4 * 16 + b[1] / 16), Symbol(b[1] % 16 * 4 + b[2] / 64), Symbol(b[2] % 64)]
         + Encode(b[3..])
  }

  /** The decoder skips carriage returns and line feeds, in strict mode too. */
  function SkipNewlines(s: string): string {
    if s == "" then ""
    else if s[0] == '\r' || s[0] == '\n' then SkipNewlines(s[1..])
    else [s[0]] + SkipNewlines(s[1..])
  }

  /** Groups of four symbols; a final group of two or three whose unused bits are zero. */
  function DecodeGroups(s: string): Option<seq<Byte>> {
    if |s| == 0 then Some([])
    else if |s| == 1 then None
    else
      var v0, v1 := Value(s[0]), Value(s[1]);
      if v0.None? || v1.None? then None
      else if |s| == 2 then
        if v1.value % 16 != 0 then None else Some([v0.value * 4 + v1.value / 16])
      else
        var v2 := Value(s[2]);
        if v2.None? then None
        else if |s| == 3 then
          if v2.value % 4 != 0 then None
          else Some([v0.value * 4 + v1.value / 16, v1.value % 16 * 16 + v2.value / 4])
        else
          var v3 := Value(s[3]);
          var rest := DecodeGroups(s[4..]);
          if v3.None? || rest.None? then None
          else Some([v0.value * 4 + v1.value / 16, v1.value % 16 * 16 + v2.value / 4, v2.value % 4 * 64 + v3.value]
                    + rest.value)
  }

  /** RawStdEncoding.Strict().DecodeString. */
  function Decode(s: string): Option<seq<Byte>> {
    DecodeGroups(SkipNewlines(s))
  }

  lemma {:induction false} DecodesItsEncoding(b: seq<Byte>)
    ensures DecodeGroups(Encode(b)) == Some(b)
  {
    var b0, b1, b2 := if |b| > 0 then b[0] else 0, if |b| > 1 then b[1] else 0, if |b| > 2 then b[2] else 0;
    BytesThroughSextets(b0, b1, b2);
    ValueOfSymbol(b0 / 4);
    ValueOfSymbol(b0 % 4 * 16 + b1 / 16);
    ValueOfSymbol(b1 % 16 * 4 + b2 / 64);
    ValueOfSymbol(b2 % 64);
    if |b| > 2 {
      DecodesItsEncoding(b[3..]);
      assert Encode(b)[4..] == Encode(b[3..]);
    }
    if |b| > 0 {
      hide DecodeGroups;
      hide Value;
      hide Symbol;
      DecodesGroup(Encode(b), b, b0 / 4, b0 % 4 * 16 + b1 / 16, b1 % 16 * 4 + b2 / 64, b2 % 64);
    }
  }

  lemma DecodesGroup(s: string, b: seq<Byte>, v0: int, v1: int, v2: int, v3: int)
    requires |b| > 0 && (if |b| < 3 then |s| == |b| + 1 else |s| > 3)
    requires Value(s[0]) == Some(v0) && Value(s[1]) == Some(v1)
    requires |b| > 1 ==> Value(s[2]) == Some(v2)
    requires |b| > 2 ==> Value(s[3]) == Some(v3) && DecodeGroups(s[4..]) == Some(b[3..])
    requires v0 * 4 + v1 / 16 == b[0]
    requires if |b| == 1 then v1 % 16 == 0 else v1 % 16 * 16 + v2 / 4 == b[1]
    requires if |b| == 2 then v2 % 4 == 0 else |b| > 2 ==> v2 % 4 * 64 + v3 == b[2]
    ensures DecodeGroups(s) == Some(b)
  {
    if |b| == 1 {
      assert b == [b[0]];
    } else if |b| == 2 {
      assert b == [b[0], b[1]];
    } else {
      assert b == [b[0], b[1], b[2]] + b[3..];
    }
  }

  lemma {:induction false} EncodesItsDecoding(s: string)
    requires DecodeGroups(s).Some?
    ensures Encode(DecodeGroups(s).value) == s
  {
    if |s| == 2 || |s| == 3 {
      EncodesShortGroup(s);
    } else if |s| > 3 {
      EncodesItsDecoding(s[4..]);
      hide Encode;
      EncodesFullGroup(s);
    }
  }

  lemma EncodesShortGroup(s: string)
    requires (|s| == 2 || |s| == 3) && DecodeGroups(s).Some?
    ensures Encode(DecodeGroups(s).value) == s
  {
    var b := DecodeGroups(s).value;
    SextetsThroughBytes(Value(s[0]).value, Value(s[1]).value, if |s| == 3 then Value(s[2]).value else 0, 0);
    hide Value;
    if |s| == 2 {
      assert b == [Value(s[0]).value * 4 + Value(s[1]).value / 16];
    }
    GluesShortGroup(s, b);
  }

  lemma GluesShortGroup(s: string, b: seq<Byte>)
    requires 1 <= |b| <= 2 && |s| == |b| + 1
    requires Value(s[0]) == Some(b[0] / 4)
    requires Value(s[1]) == Some(b[0] % 4 * 16 + if |b| == 2 then b[1] / 16 else 0)
    requires |b| == 2 ==> Value(s[2]) == Some(b[1] % 16 * 4)
    ensures Encode(b) == s
  {
    assert s == if |b| == 1 then [s[0], s[1]] else [s[0], s[1], s[2]];
  }

  lemma EncodesFullGroup(s: string)
    requires |s| > 3 && DecodeGroups(s).Some?
    requires Encode(DecodeGroups(s[4..]).value) == s[4..]
    ensures Encode(DecodeGroups(s).value) == s
  {
    var b := DecodeGroups(s).value;
    SextetsThroughBytes(Value(s[0]).value, Value(s[1]).value, Value(s[2]).value, Value(s[3]).value);
    assert b[3..] == DecodeGroups(s[4..]).value;
    GluesGroup(s, b);
  }

  lemma GluesGroup(s: string, b: seq<Byte>)
    requires |s| > 3 && |b| > 2 && Encode(b[3..]) == s[4..]
    requires Value(s[0]) == Some(b[0] / 4) && Value(s[1]) == Some(b[0] % 4 * 16 + b[1] / 16)
    requires Value(s[2]) == Some(b[1] % 16 * 4 + b[2] / 64) && Value(s[3]) == Some(b[2] % 64)
    ensures Encode(b) == s
  {
    assert s == [s[0], s[1], s[2], s[3]] + s[4..];
  }

  /** Three bytes, regrouped as four sextets and back. */
  lemma BytesThroughSextets(b0: Byte, b1: Byte, b2: Byte)
    ensures
      var v0, v1, v2, v3 := b0 / 4, b0 % 4 * 16 + b1 / 16, b1 % 16 * 4 + b2 / 64, b2 % 64;
      && v0 * 4 + v1 / 16 == b0 && v1 % 16 * 16 + v2 / 4 == b1 && v2 % 4 * 64 + v3 == b2
  {
  }

  /** Four sextets, regrouped as three bytes and back. */
  lemma SextetsThroughBytes(v0: int, v1: int, v2: int, v3: int)
    requires 0 <= v0 < 64 && 0 <= v1 < 64 && 0 <= v2 < 64 && 0 <= v3 < 64
    ensures
      var b0, b1, b2 := v0 * 4 + v1 / 16, v1 % 16 * 16 + v2 / 4, v2 % 4 * 64 + v3;
      && b0 / 4 == v0 && b0 % 4 * 16 + b1 / 16 == v1 && b1 % 16 * 4 + b2 / 64 == v2 && b2 % 64 == v3
      && b0 % 4 * 16 == v1 - v1 % 16 && b1 % 16 * 4 == v2 - v2 % 4
  {
  }

  /** A text decodes to `b` exactly when, newlines aside, it is the encoding of `b`. */
  lemma DecodeExactly(s: string, b: seq<Byte>)
    ensures Decode(s) == Some(b) <==> SkipNewlines(s) == Encode(b)
  {
    DecodesItsEncoding(b);
    if Decode(s).Some? {
      EncodesItsDecoding(SkipNewlines(s));
    }
  }

  predicate Alphabet(s: string) {
    forall c :: c in s ==> Value(c).Some?
  }

  lemma {:induction false} EncodingShape(b: seq<Byte>)
    ensures Alphabet(Encode(b))
    ensures |Encode(b)| == (4 * |b| + 2) / 3
  {
    if |b| > 2 {
      EncodingShape(b[3..]);
      ValueOfSymbol(b[0] / 4);
      ValueOfSymbol(b[0] % 4 * 16 + b[1] / 16);
      ValueOfSymbol(b[1] % 16 * 4 + b[2] / 64);
      ValueOfSymbol(b[2] % 64);
    }
  }

  lemma {:induction false} NothingToSkip(s: string)
    ensures SkipNewlines(s) == s <==> '\r' !in s && '\n' !in s
    ensures |SkipNewlines(s)| <= |s|
  {
    if s != "" {
      NothingToSkip(s[1..]);
      assert s == [s[0]] + s[1..];
    }
  }
}

module Decimal {
  import opened Common

  function Digit(d: nat): char
    requires d < 10
  {
    '0' + d as char
  }

  predicate IsDigit(c: char) {
    '0' <= c <= '9'
  }

  /** fmt's %d for an unsigned value. */
  function Print(n: nat): (s: string)
    ensures s != "" && forall c :: c in s ==> IsDigit(c)
  {
    if n < 10 then [Digit(n)] else Print(n / 10) + [Digit(n % 10)]
  }

  function ValueOf(s: string): nat
    requires forall c :: c in s ==> IsDigit(c)
  {
    if s == "" then 0
    else
      assert s[|s| - 1] in s;
      10 * ValueOf(s[..|s| - 1]) + DigitValue(s[|s| - 1])
  }

  function DigitValue(c: char): nat
    requires IsDigit(c)
  {
    c as int - '0' as int
  }

  /** strconv.ParseUint in base ten: digits only, below 2^bits; leading zeros are accepted. */
  function ParseUint(s: string, bound: nat): Option<nat> {
    if s == "" || exists i :: 0 <= i < |s| && !IsDigit(s[i]) then None
    else if ValueOf(s) >= bound then None
    else Some(ValueOf(s))
  }

  predicate NoLeadingZero(s: string) {
    |s| > 1 ==> s[0] != '0'
  }

  lemma {:induction false} ParsesItsPrint(n: nat, bound: nat)
    ensures ParseUint(Print(n), bound) == if n < bound then Some(n) else None
  {
    ValueOfPrint(n);
  }

  lemma {:induction false} ValueOfPrint(n: nat)
    ensures ValueOf(Print(n)) == n
    ensures NoLeadingZero(Print(n)) && (n > 0 ==> Print(n)[0] != '0')
  {
    if n >= 10 {
      ValueOfPrint(n / 10);
      assert Print(n)[..|Print(n)| - 1] == Print(n / 10);
    }
  }

  /** A leading zero changes nothing for the parser. */
  lemma LeadingZeroParses(n: nat, bound: nat)
    requires n < bound
    ensures ParseUint("0" + Print(n), bound) == Some(n) && !NoLeadingZero("0" + Print(n))
  {
    ValueOfPrint(n);
    ZeroKeepsValue(Print(n));
  }

  lemma {:induction false} ZeroKeepsValue(s: string)
    requires forall c :: c in s ==> IsDigit(c)
    ensures ValueOf("0" + s) == ValueOf(s)
  {
    if s == "" {
      assert ("0" + s)[..0] == "" && ValueOf("") == 0;
    } else {
      var front, last := s[..|s| - 1], s[|s| - 1];
      ZeroKeepsValue(front);
      assert last in s && ("0" + s)[..|s|] == "0" + front && ("0" + s)[|s|] == last;
    }
  }

  /** Among the texts that parse to n, exactly one has no leading zero: the printed one. */
  lemma {:induction false} PrintIsCanonical(s: string)
    requires s != "" && forall c :: c in s ==> IsDigit(c)
    ensures NoLeadingZero(s) <==> s == Print(ValueOf(s))
  {
    ValueOfPrint(ValueOf(s));
    if NoLeadingZero(s) {
      PrintsItsValue(s);
    }
  }

  lemma {:induction false} PrintsItsValue(s: string)
    requires s != "" && NoLeadingZero(s) && forall c :: c in s ==> IsDigit(c)
    ensures s == Print(ValueOf(s))
    ensures s[0] != '0' ==> ValueOf(s) > 0
  {
    var front, last := s[..|s| - 1], s[|s| - 1];
    assert last in s && s == front + [last];
    if front == "" {
      assert ValueOf("") == 0;
    } else {
      assert front[0] == s[0];
      PrintsItsValue(front);
      assert ValueOf(s) / 10 == ValueOf(front) && ValueOf(s) % 10 == DigitValue(last);
    }
  }

  lemma {:induction false} PrintLength(n: nat, bound: nat, digits: nat)
    requires n < bound && digits > 0 && (digits == 1 ==> bound <= 10) && (digits > 1 ==> bound <= 10 * Pow10(digits - 1))
    ensures |Print(n)| <= digits
  {
    if digits > 1 && n >= 10 {
      PrintLength(n / 10, Pow10(digits - 1), digits - 1);
    }
  }

  function Pow10(k: nat): nat {
    if k == 0 then 1 else 10 * Pow10(k - 1)
  }
}
