/**
 Upload tokens of internal/storage/keys.go: base64url without padding (sections
 5 and 3.2 of RFC 4648) over validated object keys.
 */
module UploadTokens {
  import opened GoTypes

  // ------------------------------------------------------------------- base64url

  const CR: byte := 13
  const LF: byte := 10

  // The alphabet: A-Z a-z 0-9 - _
  function Symbol(v: int): byte
    requires 0 <= v < 64
  {
    if v < 26 then (65 + v) as byte
    else if v < 52 then (71 + v) as byte
    else if v < 62 then (v - 4) as byte
    else if v == 62 then 45 else 95
  }

  function Sextet(b: byte): Option<int> {
    if 65 <= b <= 90 then Some(b as int - 65)
    else if 97 <= b <= 122 then Some(b as int - 71)
    else if 48 <= b <= 57 then Some(b as int + 4)
    else if b == 45 then Some(62)
    else if b == 95 then Some(63)
    else None
  }

  lemma SymbolsInvert(v: int, b: byte)
    ensures 0 <= v < 64 ==> Sextet(Symbol(v)) == Some(v) && Symbol(v) != CR && Symbol(v) != LF
    ensures Sextet(b).Some? ==> 0 <= Sextet(b).value < 64 && Symbol(Sextet(b).value) == b
  {
  }

  // EncodeToString of RawURLEncoding: three bytes are regrouped as four sextets; a short last group is not padded.
  function Encode(s: GoString): GoString {
    if s == [] then []
    else if |s| == 1 then Symbols1(s[0] as int)
    else if |s| == 2 then Symbols2(s[0] as int, s[1] as int)
    else Symbols3(s[0] as int, s[1] as int, s[2] as int) + Encode(s[3..])
  }

  predicate IsByte(a: int) { 0 <= a < 256 }

  function Symbols1(a: int): GoString
    requires IsByte(a)
  {
    [Symbol(a / 4), Symbol(a % 4 * 16)]
  }

  function Symbols2(a: int, b: int): GoString
    requires IsByte(a) && IsByte(b)
  {
    [Symbol(a / 4), Symbol(a % 4 * 16 + b / 16), Symbol(b % 16 * 4)]
  }

  function Symbols3(a: int, b: int, c: int): GoString
    requires IsByte(a) && IsByte(b) && IsByte(c)
  {
    [Symbol(a / 4), Symbol(a % 4 * 16 + b / 16), Symbol(b % 16 * 4 + c / 64), Symbol(c % 64)]
  }

  // Table 2 of RFC 4648.
  const CAPITALS: string := "ABCDEFGHIJKLMNOPQRSTUVWXYZ"
  const LETTERS: string := "abcdefghijklmnopqrstuvwxyz"
  const OTHERS: string := "0123456789-_"
  const ALPHABET: string := CAPITALS + LETTERS + OTHERS

  lemma CapitalIs(v: nat)
    requires v < 26
    ensures CAPITALS[v] == (65 + v) as char
  {
  }

  lemma LetterIs(v: nat)
    requires v < 26
    ensures LETTERS[v] == (97 + v) as char
  {
  }

  lemma SymbolIsTabled(v: int)
    requires 0 <= v < 64
    ensures Symbol(v) as char == ALPHABET[v]
  {
    if v < 26 {
      CapitalIs(v);
    } else if v < 52 {
      LetterIs(v - 26);
    }
  }

  // The digits of a number of 24 bits to the base 64.
  function Digits(n: nat): seq<int> { [n / 64 / 64 / 64 % 64, n / 64 / 64 % 64, n / 64 % 64, n % 64] }

  lemma DigitOf(q: nat, r: nat)
    requires r < 64
    ensures (64 * q + r) / 64 == q && (64 * q + r) % 64 == r
  {
  }

  lemma DigitsAre(d3: nat, d2: nat, d1: nat, d0: nat)
    requires d3 < 64 && d2 < 64 && d1 < 64 && d0 < 64
    ensures Digits(64 * (64 * (64 * d3 + d2) + d1) + d0) == [d3, d2, d1, d0]
  {
    DigitOf(64 * (64 * d3 + d2) + d1, d0);
    DigitOf(64 * d3 + d2, d1);
    DigitOf(d3, d2);
  }

  lemma GroupIsNumber(x: int, y: int, z: int)
    requires IsByte(x) && IsByte(y) && IsByte(z)
    ensures Digits(65536 * x + 256 * y + z) == [x / 4, x % 4 * 16 + y / 16, y % 16 * 4 + z / 64, z % 64]
  {
    var d3, d2, d1, d0 := x / 4, x % 4 * 16 + y / 16, y % 16 * 4 + z / 64, z % 64;
    assert 65536 * x + 256 * y + z == 64 * (64 * (64 * d3 + d2) + d1) + d0;
    DigitsAre(d3, d2, d1, d0);
  }

  predicate AllSextets(digits: seq<int>) {
    |digits| == 4 && IsSextet(digits[0]) && IsSextet(digits[1]) && IsSextet(digits[2]) && IsSextet(digits[3])
  }

  function Write(digits: seq<int>): GoString
    requires AllSextets(digits)
  {
    [Symbol(digits[0]), Symbol(digits[1]), Symbol(digits[2]), Symbol(digits[3])]
  }

  lemma FullGroup(a: byte, b: byte, c: byte, rest: GoString)
    ensures Encode([a, b, c] + rest) == Symbols3(a as int, b as int, c as int) + Encode(rest)
  {
    assert ([a, b, c] + rest)[3..] == rest;
  }

  lemma WritesGroup(x: int, y: int, z: int)
    requires IsByte(x) && IsByte(y) && IsByte(z)
    ensures AllSextets(Digits(65536 * x + 256 * y + z)) && Write(Digits(65536 * x + 256 * y + z)) == Symbols3(x, y, z)
  {
    GroupIsNumber(x, y, z);
  }

  /** Section 4 of RFC 4648: three bytes are one number of 24 bits, written as four
      digits to the base 64; missing bytes count as zero and their symbols are left
      out. */
  lemma EncodesBits(a: byte, b: byte, c: byte, rest: GoString)
    ensures Encode([a, b, c] + rest)
            == Write(Digits(65536 * a as int + 256 * b as int + c as int)) + Encode(rest)
    ensures Encode([a, b]) == Write(Digits(65536 * a as int + 256 * b as int))[..3]
    ensures Encode([a]) == Write(Digits(65536 * a as int))[..2]
    ensures Encode([]) == []
  {
    FullGroup(a, b, c, rest);
    WritesGroup(a as int, b as int, c as int);
    WritesGroup(a as int, b as int, 0);
    WritesGroup(a as int, 0, 0);
    ShortGroups(a as int, b as int);
  }

  lemma ShortGroups(x: int, y: int)
    requires IsByte(x) && IsByte(y)
    ensures Symbols3(x, y, 0)[..3] == Symbols2(x, y) && Symbols3(x, 0, 0)[..2] == Symbols1(x)
  {
  }

  // Go's decoder skips carriage returns and line feeds wherever they stand.
  function Strip(t: GoString): GoString {
    if t == [] then []
    else (if t[0] == CR || t[0] == LF then [] else [t[0]]) + Strip(t[1..])
  }

  predicate IsSextet(v: int) { 0 <= v < 64 }

  function First(c0: int, c1: int): byte
    requires IsSextet(c0) && IsSextet(c1)
  {
    (c0 * 4 + c1 / 16) as byte
  }

  function Second(c1: int, c2: int): byte
    requires IsSextet(c1) && IsSextet(c2)
  {
    (c1 % 16 * 16 + c2 / 4) as byte
  }

  function Third(c2: int, c3: int): byte
    requires IsSextet(c2) && IsSextet(c3)
  {
    (c2 % 4 * 64 + c3) as byte
  }

  predicate InAlphabet(b: byte) { Sextet(b).Some? }

  function ValueOf(b: byte): (v: int)
    requires InAlphabet(b)
    ensures IsSextet(v) && Symbol(v) == b
  {
    Sextet(b).value
  }

  // Four symbols to three bytes; the unused low bits of a short last group are not examined.
  function DecodeGroups(u: GoString): Option<GoString> {
    if u == [] then Some([])
    else if |u| == 1 || !InAlphabet(u[0]) || !InAlphabet(u[1]) then None
    else if |u| == 2 then Some([First(ValueOf(u[0]), ValueOf(u[1]))])
    else if !InAlphabet(u[2]) then None
    else if |u| == 3 then Some([First(ValueOf(u[0]), ValueOf(u[1])), Second(ValueOf(u[1]), ValueOf(u[2]))])
    else if !InAlphabet(u[3]) then None
    else
      match DecodeGroups(u[4..])
      case None => None
      case Some(rest) =>
        Some([First(ValueOf(u[0]), ValueOf(u[1])), Second(ValueOf(u[1]), ValueOf(u[2])),
              Third(ValueOf(u[2]), ValueOf(u[3]))] + rest)
  }

  function Decode(t: GoString): Option<GoString> { DecodeGroups(Strip(t)) }

  predicate NoBreaks(t: GoString) { forall i :: 0 <= i < |t| ==> t[i] != CR && t[i] != LF }

  lemma {:induction false} CleanMeansStripped(t: GoString)
    ensures NoBreaks(t) ==> Strip(t) == t
    ensures NoBreaks(Strip(t))
    ensures !NoBreaks(t) ==> |Strip(t)| < |t|
    ensures |Strip(t)| <= |t|
  {
    if t == [] {
    } else {
      CleanMeansStripped(t[1..]);
      assert t == [t[0]] + t[1..];
    }
  }

  lemma {:induction false} EncodedHasNoBreaks(s: GoString)
    ensures NoBreaks(Encode(s))
  {
    if |s| >= 3 {
      EncodedHasNoBreaks(s[3..]);
    }
  }

  lemma SymbolValue(v: int)
    requires IsSextet(v)
    ensures InAlphabet(Symbol(v)) && ValueOf(Symbol(v)) == v
  {
    SymbolsInvert(v, 0);
  }

  lemma FirstBack(a: int, low: int)
    requires IsByte(a) && 0 <= low < 16
    ensures IsSextet(a / 4) && IsSextet(a % 4 * 16 + low) && First(a / 4, a % 4 * 16 + low) as int == a
  {
  }

  lemma SecondBack(high: int, b: int, low: int)
    requires 0 <= high < 4 && IsByte(b) && 0 <= low < 4
    ensures IsSextet(high * 16 + b / 16) && IsSextet(b % 16 * 4 + low)
    ensures Second(high * 16 + b / 16, b % 16 * 4 + low) as int == b
  {
    assert (high * 16 + b / 16) % 16 == b / 16;
  }

  lemma ThirdBack(high: int, c: int)
    requires 0 <= high < 16 && IsByte(c)
    ensures IsSextet(high * 4 + c / 64) && IsSextet(c % 64) && Third(high * 4 + c / 64, c % 64) as int == c
  {
    assert (high * 4 + c / 64) % 4 == c / 64;
  }

  lemma GroupOfThree(a: byte, b: byte, c: byte, rest: GoString)
    requires DecodeGroups(rest).Some?
    ensures DecodeGroups(Symbols3(a as int, b as int, c as int) + rest) == Some([a, b, c] + DecodeGroups(rest).value)
  {
    var x, y, z := a as int, b as int, c as int;
    FirstBack(x, y / 16);
    SecondBack(x % 4, y, z / 64);
    ThirdBack(y % 16, z);
    SymbolValue(x / 4);
    SymbolValue(x % 4 * 16 + y / 16);
    SymbolValue(y % 16 * 4 + z / 64);
    SymbolValue(z % 64);
    assert (Symbols3(x, y, z) + rest)[4..] == rest;
  }

  lemma GroupOfTwo(a: byte, b: byte)
    ensures DecodeGroups(Symbols2(a as int, b as int)) == Some([a, b])
  {
    var x, y := a as int, b as int;
    FirstBack(x, y / 16);
    SecondBack(x % 4, y, 0);
    SymbolValue(x / 4);
    SymbolValue(x % 4 * 16 + y / 16);
    SymbolValue(y % 16 * 4);
  }

  lemma GroupOfOne(a: byte)
    ensures DecodeGroups(Symbols1(a as int)) == Some([a])
  {
    FirstBack(a as int, 0);
    SymbolValue(a as int / 4);
    SymbolValue(a as int % 4 * 16);
  }

  lemma {:induction false} GroupsRoundTrip(s: GoString)
    ensures DecodeGroups(Encode(s)) == Some(s)
  {
    if |s| >= 3 {
      GroupsRoundTrip(s[3..]);
      GroupOfThree(s[0], s[1], s[2], Encode(s[3..]));
      assert s == [s[0], s[1], s[2]] + s[3..];
    } else if |s| == 2 {
      GroupOfTwo(s[0], s[1]);
      assert s == [s[0], s[1]];
    } else if |s| == 1 {
      GroupOfOne(s[0]);
      assert s == [s[0]];
    }
  }

  // Every byte string survives encoding and decoding.
  lemma RoundTrip(s: GoString)
    ensures Decode(Encode(s)) == Some(s)
  {
    GroupsRoundTrip(s);
    EncodedHasNoBreaks(s);
    CleanMeansStripped(Encode(s));
  }

  // ------------------------------------------------------------------ canonical tokens

  // The low bits of the last symbol that carry no data are zero.
  predicate TailZero(u: GoString) {
    if |u| >= 4 then TailZero(u[4..])
    else if |u| == 3 then InAlphabet(u[2]) && ValueOf(u[2]) % 4 == 0
    else if |u| == 2 then InAlphabet(u[1]) && ValueOf(u[1]) % 16 == 0
    else true
  }

  lemma SymbolInjective(a: int, b: byte)
    requires IsSextet(a) && InAlphabet(b)
    ensures Symbol(a) == b <==> a == ValueOf(b)
  {
    SymbolValue(a);
  }

  // Reading a byte's sextets back from the bytes they were packed into.
  lemma FirstForth(c0: int, c1: int)
    requires IsSextet(c0) && IsSextet(c1)
    ensures First(c0, c1) as int / 4 == c0 && First(c0, c1) as int % 4 == c1 / 16
  {
  }

  lemma SecondForth(c1: int, c2: int)
    requires IsSextet(c1) && IsSextet(c2)
    ensures Second(c1, c2) as int / 16 == c1 % 16 && Second(c1, c2) as int % 16 == c2 / 4
  {
  }

  lemma ThirdForth(c2: int, c3: int)
    requires IsSextet(c2) && IsSextet(c3)
    ensures Third(c2, c3) as int / 64 == c2 % 4 && Third(c2, c3) as int % 64 == c3
  {
  }

  lemma CanonicalTwo(u: GoString)
    requires |u| == 2 && InAlphabet(u[0]) && InAlphabet(u[1])
    ensures Symbols1(First(ValueOf(u[0]), ValueOf(u[1])) as int) == u <==> TailZero(u)
  {
    var c0, c1 := ValueOf(u[0]), ValueOf(u[1]);
    FirstForth(c0, c1);
    SymbolInjective(c1 / 16 * 16, u[1]);
    assert u == [u[0], u[1]];
  }

  lemma CanonicalThree(u: GoString)
    requires |u| == 3 && InAlphabet(u[0]) && InAlphabet(u[1]) && InAlphabet(u[2])
    ensures Symbols2(First(ValueOf(u[0]), ValueOf(u[1])) as int, Second(ValueOf(u[1]), ValueOf(u[2])) as int) == u
            <==> TailZero(u)
  {
    var c0, c1, c2 := ValueOf(u[0]), ValueOf(u[1]), ValueOf(u[2]);
    ThreeAgain(c0, c1, c2);
    assert u == [Symbol(c0), Symbol(c1), Symbol(c2)];
    SymbolInjective(c2 / 4 * 4, u[2]);
    assert c2 / 4 * 4 == c2 <==> c2 % 4 == 0;
  }

  lemma ThreeAgain(c0: int, c1: int, c2: int)
    requires IsSextet(c0) && IsSextet(c1) && IsSextet(c2)
    ensures Symbols2(First(c0, c1) as int, Second(c1, c2) as int)
            == [Symbol(c0), Symbol(c1), Symbol(c2 / 4 * 4)]
  {
    FirstForth(c0, c1);
    SecondForth(c1, c2);
    assert c1 / 16 * 16 + c1 % 16 == c1;
  }

  lemma CanonicalFour(u: GoString)
    requires |u| == 4 && InAlphabet(u[0]) && InAlphabet(u[1]) && InAlphabet(u[2]) && InAlphabet(u[3])
    ensures Symbols3(First(ValueOf(u[0]), ValueOf(u[1])) as int, Second(ValueOf(u[1]), ValueOf(u[2])) as int,
                     Third(ValueOf(u[2]), ValueOf(u[3])) as int) == u
  {
    var c0, c1, c2, c3 := ValueOf(u[0]), ValueOf(u[1]), ValueOf(u[2]), ValueOf(u[3]);
    FirstForth(c0, c1);
    SecondForth(c1, c2);
    ThirdForth(c2, c3);
    assert c1 / 16 * 16 + c1 % 16 == c1;
    assert c2 / 4 * 4 + c2 % 4 == c2;
    assert u == [u[0], u[1], u[2], u[3]];
  }

  lemma CanonicalGroup(u: GoString)
    requires |u| >= 4 && DecodeGroups(u).Some?
    ensures DecodeGroups(u[4..]).Some?
    ensures Encode(DecodeGroups(u).value) == u[..4] + Encode(DecodeGroups(u[4..]).value)
  {
    CanonicalFour(u[..4]);
    var k := DecodeGroups(u).value;
    assert k[3..] == DecodeGroups(u[4..]).value;
  }

  lemma {:induction false} CanonicalGroups(u: GoString)
    requires DecodeGroups(u).Some?
    ensures Encode(DecodeGroups(u).value) == u <==> TailZero(u)
  {
    if |u| >= 4 {
      CanonicalGroup(u);
      CanonicalGroups(u[4..]);
      assert u == u[..4] + u[4..];
      assert forall x: GoString, y: GoString :: u[..4] + x == u[..4] + y ==>
          x == (u[..4] + x)[4..] == (u[..4] + y)[4..] == y;
    } else if |u| == 3 {
      CanonicalThree(u);
    } else if |u| == 2 {
      CanonicalTwo(u);
    }
  }

  /** Decoding is not one-to-one: a token decodes to the key it encodes exactly
      when it holds no line break and its unused bits are zero. */
  lemma TokenIsCanonical(t: GoString)
    requires Decode(t).Some?
    ensures Encode(Decode(t).value) == t <==> NoBreaks(t) && TailZero(t)
  {
    CleanMeansStripped(t);
    EncodedHasNoBreaks(Decode(t).value);
    CanonicalGroups(Strip(t));
  }

  // A token of `s` without line breaks that is not its encoding.
  predicate Slack(t: GoString, s: GoString) { DecodeGroups(t) == Some(s) && t != Encode(s) && NoBreaks(t) }

  lemma SlackOfOne(a: byte) returns (t: GoString)
    ensures Slack(t, [a])
  {
    var x := a as int;
    t := [Symbol(x / 4), Symbol(x % 4 * 16 + 1)];
    FirstBack(x, 1);
    SymbolValue(x / 4);
    SymbolValue(x % 4 * 16 + 1);
    SymbolInjective(x % 4 * 16, t[1]);
  }

  lemma SlackOfTwo(a: byte, b: byte) returns (t: GoString)
    ensures Slack(t, [a, b])
  {
    var x, y := a as int, b as int;
    t := [Symbol(x / 4), Symbol(x % 4 * 16 + y / 16), Symbol(y % 16 * 4 + 1)];
    FirstBack(x, y / 16);
    SecondBack(x % 4, y, 1);
    SymbolValue(x / 4);
    SymbolValue(x % 4 * 16 + y / 16);
    SymbolValue(y % 16 * 4 + 1);
    SymbolInjective(y % 16 * 4, t[2]);
  }

  lemma SlackAfterGroup(a: byte, b: byte, c: byte, t: GoString, s: GoString)
    requires Slack(t, s)
    ensures Slack(Symbols3(a as int, b as int, c as int) + t, [a, b, c] + s)
  {
    var group := Symbols3(a as int, b as int, c as int);
    GroupOfThree(a, b, c, t);
    assert (group + t)[4..] == t;
    assert ([a, b, c] + s)[3..] == s;
    assert Encode([a, b, c] + s) == group + Encode(s);
    assert (group + Encode(s))[4..] == Encode(s);
    GroupHasNoBreaks(a as int, b as int, c as int);
  }

  lemma GroupHasNoBreaks(a: int, b: int, c: int)
    requires IsByte(a) && IsByte(b) && IsByte(c)
    ensures NoBreaks(Symbols3(a, b, c))
  {
  }

  // The last symbol of a short group carries a bit that nobody reads.
  lemma {:induction false} SlackToken(s: GoString) returns (t: GoString)
    requires |s| % 3 != 0
    ensures Slack(t, s)
  {
    if |s| == 1 {
      t := SlackOfOne(s[0]);
      assert s == [s[0]];
    } else if |s| == 2 {
      t := SlackOfTwo(s[0], s[1]);
      assert s == [s[0], s[1]];
    } else {
      var rest := SlackToken(s[3..]);
      SlackAfterGroup(s[0], s[1], s[2], rest, s[3..]);
      assert s == [s[0], s[1], s[2]] + s[3..];
      t := Symbols3(s[0] as int, s[1] as int, s[2] as int) + rest;
    }
  }

  lemma BreakIsStripped(t: GoString)
    ensures Strip([LF] + t) == Strip(t)
  {
    assert ([LF] + t)[1..] == t;
  }

  lemma BrokenToken(s: GoString)
    ensures Decode([LF] + Encode(s)) == Some(s) && [LF] + Encode(s) != Encode(s)
  {
    RoundTrip(s);
    BreakIsStripped(Encode(s));
    assert |[LF] + Encode(s)| == |Encode(s)| + 1;
  }

  lemma GroupHead(u: GoString)
    requires |u| >= 4 && DecodeGroups(u).Some?
    ensures DecodeGroups(u[4..]).Some? && |DecodeGroups(u).value| == 3 + |DecodeGroups(u[4..]).value|
  {
  }

  // A decodable text is q groups of four and a short one of r symbols.
  lemma {:induction false} GroupLength(u: GoString) returns (q: nat, r: nat)
    requires DecodeGroups(u).Some?
    ensures |u| == 4 * q + r && (r == 0 || r == 2 || r == 3)
    ensures |DecodeGroups(u).value| == 3 * q + (if r == 0 then 0 else r - 1)
  {
    if |u| < 4 {
      q, r := 0, |u|;
    } else {
      GroupHead(u);
      q, r := GroupLength(u[4..]);
      q := q + 1;
    }
  }

  predicate AllSymbols(u: GoString) { forall i :: 0 <= i < |u| ==> u[i] as char in ALPHABET }

  lemma InAlphabetMeans(b: byte)
    ensures InAlphabet(b) <==> b as char in ALPHABET
  {
    SymbolsInvert(0, b);
    if InAlphabet(b) {
      SymbolIsTabled(Sextet(b).value);
    }
    if b as char in ALPHABET {
      var v :| 0 <= v < 64 && ALPHABET[v] == b as char;
      SymbolIsTabled(v);
      SymbolsInvert(v, b);
    }
  }

  predicate AllInAlphabet(u: GoString) { forall i :: 0 <= i < |u| ==> InAlphabet(u[i]) }

  lemma AllInAlphabetByParts(u: GoString)
    requires |u| >= 4
    ensures AllInAlphabet(u) <==> AllInAlphabet(u[..4]) && AllInAlphabet(u[4..])
  {
    assert u == u[..4] + u[4..];
  }

  lemma {:induction false} GroupsDecode(u: GoString, q: nat, r: nat)
    requires |u| == 4 * q + r && r < 4
    ensures DecodeGroups(u).Some? <==> AllInAlphabet(u) && r != 1
    decreases q
  {
    if q == 0 {
    } else {
      GroupsDecode(u[4..], q - 1, r);
      AllInAlphabetByParts(u);
    }
  }

  // Line breaks aside, a token decodes exactly when it is written in the alphabet
  // and leaves no single symbol over.
  lemma DecodesExactly(t: GoString)
    ensures Decode(t).Some? <==> AllSymbols(Strip(t)) && |Strip(t)| % 4 != 1
  {
    var u := Strip(t);
    GroupsDecode(u, |u| / 4, |u| % 4);
    forall i | 0 <= i < |u|
      ensures InAlphabet(u[i]) <==> u[i] as char in ALPHABET
    {
      InAlphabetMeans(u[i]);
    }
  }

  lemma {:induction false} FullGroupsHaveNoTail(u: GoString, q: nat)
    requires |u| == 4 * q
    ensures TailZero(u)
    decreases q
  {
    if q == 0 {
    } else {
      FullGroupsHaveNoTail(u[4..], q - 1);
    }
  }

  lemma OnlyToken(s: GoString, t: GoString)
    requires |s| % 3 == 0 && NoBreaks(t) && Decode(t) == Some(s)
    ensures t == Encode(s)
  {
    CleanMeansStripped(t);
    var q, r := GroupLength(t);
    assert r == 0;
    FullGroupsHaveNoTail(t, q);
    TokenIsCanonical(t);
  }

  predicate OtherToken(t: GoString, s: GoString) { NoBreaks(t) && Decode(t) == Some(s) && t != Encode(s) }

  /** No byte string has only one token: a line break can always be added. A second
      token without one exists exactly when the length is not a multiple of three. */
  lemma SecondToken(s: GoString)
    ensures Decode([LF] + Encode(s)) == Some(s) && [LF] + Encode(s) != Encode(s)
    ensures (exists t :: OtherToken(t, s)) <==> |s| % 3 != 0
  {
    BrokenToken(s);
    if |s| % 3 != 0 {
      var t := SlackToken(s);
      CleanMeansStripped(t);
      assert OtherToken(t, s);
    } else {
      forall t | NoBreaks(t) && Decode(t) == Some(s)
        ensures t == Encode(s)
      {
        OnlyToken(s, t);
      }
    }
  }
}
