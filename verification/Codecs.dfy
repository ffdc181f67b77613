// Unpadded base64url (RFC 4648, sections 3.2 and 5) and signed decimals, as the Go library writes and
// reads them. A Go string is a string of bytes: one char per byte.
module Codecs {
  import opened Wrappers

  predicate IsBytes(s: string) {
    forall i :: 0 <= i < |s| ==> s[i] as int < 256
  }

  function Byte(v: nat): char
    requires v < 256
  {
    v as char
  }

  // ---------------------------------------------------------------- base64url

  function Digit(v: nat): char
    requires v < 64
  {
    if v < 26 then ('A' as int + v) as char
    else if v < 52 then ('a' as int + v - 26) as char
    else if v < 62 then ('0' as int + v - 52) as char
    else if v == 62 then '-'
    else '_'
  }

  function Value(c: char): (v: Option<nat>)
    ensures v.Some? ==> v.value < 64 && Digit(v.value) == c
  {
    if 'A' <= c <= 'Z' then Some(c as int - 'A' as int)
    else if 'a' <= c <= 'z' then Some(c as int - 'a' as int + 26)
    else if '0' <= c <= '9' then Some(c as int - '0' as int + 52)
    else if c == '-' then Some(62)
    else if c == '_' then Some(63)
    else None
  }

  lemma ValueOfDigit(v: nat)
    requires v < 64
    ensures Value(Digit(v)) == Some(v)
    ensures Digit(v) != '.' && Digit(v) != '\r' && Digit(v) != '\n' && (Digit(v) as int) < 256
  {
  }

  /** The four digits of three bytes. */
  function Quad(a: char, b: char, c: char): (q: string)
    requires a as int < 256 && b as int < 256 && c as int < 256
    ensures |q| == 4
  {
    var x, y, z := a as int, b as int, c as int;
    [Digit(x / 4), Digit(x % 4 * 16 + y / 16), Digit(y % 16 * 4 + z / 64), Digit(z % 64)]
  }

  const ZERO: char := 0 as char

  function Encode(s: string): string
    requires IsBytes(s)
  {
    if s == [] then []
    else if |s| == 1 then Quad(s[0], ZERO, ZERO)[..2]
    else if |s| == 2 then Quad(s[0], s[1], ZERO)[..3]
    else Quad(s[0], s[1], s[2]) + Encode(s[3..])
  }

  /** The decoder skips line breaks wherever they are. */
  function Unbroken(t: string): string {
    if t == [] then []
    else
      var k := |t| - 1;
      Unbroken(t[..k]) + if t[k] == '\r' || t[k] == '\n' then [] else [t[k]]
  }

  /** A group of two or three digits at the end gives one or two bytes, whatever its spare bits are. */
  function DecodeGroups(t: string): Option<string> {
    if t == [] then Some([])
    else if |t| == 1 then None
    else
      var p, q := Value(t[0]), Value(t[1]);
      if p == None || q == None then None
      else
        var a := Byte(p.value * 4 + q.value / 16);
        if |t| == 2 then Some([a])
        else
          var r := Value(t[2]);
          if r == None then None
          else
            var b := Byte(q.value % 16 * 16 + r.value / 4);
            if |t| == 3 then Some([a, b])
            else
              var u := Value(t[3]);
              if u == None then None
              else
                var rest := DecodeGroups(t[4..]);
                if rest == None then None
                else Some([a, b, Byte(r.value % 4 * 64 + u.value)] + rest.value)
  }

  function Decode(t: string): Option<string> {
    DecodeGroups(Unbroken(t))
  }

  predicate IsPart(t: string) {
    forall i :: 0 <= i < |t| ==> t[i] != '.' && t[i] != '\r' && t[i] != '\n' && (t[i] as int) < 256
  }

  lemma QuadIsPart(a: char, b: char, c: char)
    requires a as int < 256 && b as int < 256 && c as int < 256
    ensures IsPart(Quad(a, b, c))
  {
    forall v: nat | v < 64 {
      ValueOfDigit(v);
    }
  }

  lemma {:induction false} EncodeIsPart(s: string)
    requires IsBytes(s)
    ensures IsPart(Encode(s)) && (Encode(s) == [] <==> s == [])
  {
    hide Quad;
    if |s| == 1 {
      QuadIsPart(s[0], ZERO, ZERO);
    } else if |s| == 2 {
      QuadIsPart(s[0], s[1], ZERO);
    } else if |s| > 2 {
      QuadIsPart(s[0], s[1], s[2]);
      EncodeIsPart(s[3..]);
    }
  }

  lemma {:induction false} PartIsUnbroken(t: string)
    requires IsPart(t)
    ensures Unbroken(t) == t
  {
    if t != [] {
      PartIsUnbroken(t[..|t| - 1]);
    }
  }

  lemma QuadValues(a: char, b: char, c: char)
    requires a as int < 256 && b as int < 256 && c as int < 256
    ensures var t := Quad(a, b, c);
      var p, q, r, u := Value(t[0]), Value(t[1]), Value(t[2]), Value(t[3]);
      && p.Some? && q.Some? && r.Some? && u.Some?
      && p.value * 4 + q.value / 16 == a as int && q.value % 16 * 16 + r.value / 4 == b as int
      && r.value % 4 * 64 + u.value == c as int
  {
    var x, y, z := a as int, b as int, c as int;
    ValueOfDigit(x / 4);
    ValueOfDigit(x % 4 * 16 + y / 16);
    ValueOfDigit(y % 16 * 4 + z / 64);
    ValueOfDigit(z % 64);
    hide Value, Digit;
  }

  /** A whole group in front of more. */
  lemma {:induction false} QuadDecodes(a: char, b: char, c: char, more: string)
    requires a as int < 256 && b as int < 256 && c as int < 256 && DecodeGroups(more).Some?
    ensures DecodeGroups(Quad(a, b, c) + more) == Some([a, b, c] + DecodeGroups(more).value)
  {
    QuadValues(a, b, c);
    hide Value, Quad;
    assert (Quad(a, b, c) + more)[4..] == more;
  }

  /** The group at the end of one or two bytes. */
  lemma TailDecodes(a: char, b: char, c: char)
    requires a as int < 256 && b as int < 256 && c as int < 256
    ensures DecodeGroups(Quad(a, b, c)[..2]) == Some([a])
    ensures DecodeGroups(Quad(a, b, c)[..3]) == Some([a, b])
  {
    QuadValues(a, b, c);
    hide Value, Quad;
  }

  lemma {:induction false} EncodeSteps(s: string)
    requires IsBytes(s)
    ensures s == [] ==> DecodeGroups(Encode(s)) == Some([])
    ensures |s| == 1 ==> Encode(s) == Quad(s[0], ZERO, ZERO)[..2]
    ensures |s| == 2 ==> Encode(s) == Quad(s[0], s[1], ZERO)[..3]
    ensures |s| > 2 ==> Encode(s) == Quad(s[0], s[1], s[2]) + Encode(s[3..])
  {
    hide Quad;
  }

  /** The alphabet of the URL and filename safe encoding (RFC 4648, section 5): letters, digits, '-' and
      '_', in this order. */
  lemma AlphabetIsUrlSafe(v: nat)
    requires v < 64
    ensures Digit(v) as int ==
      if v < 26 then 'A' as int + v
      else if v < 52 then 'a' as int + (v - 26)
      else if v < 62 then '0' as int + (v - 52)
      else if v == 62 then '-' as int
      else '_' as int
  {
  }

  /** Three bytes, the first one the most significant, are the four digits of one 24-bit number. */
  lemma BitsInOrder(a: char, b: char, c: char)
    requires a as int < 256 && b as int < 256 && c as int < 256
    ensures var t := Quad(a, b, c);
      var p, q, r, u := Value(t[0]), Value(t[1]), Value(t[2]), Value(t[3]);
      p.Some? && q.Some? && r.Some? && u.Some? &&
      p.value * 262144 + q.value * 4096 + r.value * 64 + u.value == a as int * 65536 + b as int * 256 + c as int
  {
    QuadValues(a, b, c);
    hide Value, Quad;
  }

  /** The test vectors of RFC 4648, section 10, without padding. */
  lemma TestVectors()
    ensures Encode("") == "" && Encode("f") == "Zg" && Encode("fo") == "Zm8" && Encode("foo") == "Zm9v"
    ensures Encode("foob") == "Zm9vYg" && Encode("fooba") == "Zm9vYmE" && Encode("foobar") == "Zm9vYmFy"
  {
    assert "foob"[3..] == "b" && "fooba"[3..] == "ba" && "foobar"[3..] == "bar";
    assert "bar"[3..] == "";
  }

  lemma {:induction false} DecodeGroupsOfEncode(s: string)
    requires IsBytes(s)
    ensures DecodeGroups(Encode(s)) == Some(s)
  {
    hide DecodeGroups, Quad, Encode;
    EncodeSteps(s);
    if |s| == 1 {
      TailDecodes(s[0], ZERO, ZERO);
      assert s == [s[0]];
    } else if |s| == 2 {
      TailDecodes(s[0], s[1], ZERO);
      assert s == [s[0], s[1]];
    } else if |s| > 2 {
      DecodeGroupsOfEncode(s[3..]);
      QuadDecodes(s[0], s[1], s[2], Encode(s[3..]));
      assert s == [s[0], s[1], s[2]] + s[3..];
    }
  }

  /** What is encoded is decoded. */
  lemma {:induction false} DecodeOfEncode(s: string)
    requires IsBytes(s)
    ensures Decode(Encode(s)) == Some(s)
  {
    EncodeIsPart(s);
    PartIsUnbroken(Encode(s));
    DecodeGroupsOfEncode(s);
  }

  predicate OnlyBreaks(t: string) {
    forall i :: 0 <= i < |t| ==> t[i] == '\r' || t[i] == '\n'
  }

  lemma {:induction false} UnbrokenSnoc(t: string, c: char)
    ensures Unbroken(t + [c]) == Unbroken(t) + if c == '\r' || c == '\n' then [] else [c]
  {
    assert (t + [c])[..|t|] == t;
  }

  lemma Regroup(a: string, b: string, c: string)
    ensures (a + b) + c == a + (b + c)
  {
  }

  lemma {:induction false} UnbrokenJoin(a: string, b: string)
    ensures Unbroken(a + b) == Unbroken(a) + Unbroken(b)
    ensures OnlyBreaks(b) ==> Unbroken(b) == []
  {
    if b == [] {
      assert a + b == a;
    } else {
      hide Unbroken;
      var k := |b| - 1;
      UnbrokenJoin(a, b[..k]);
      UnbrokenSnoc(a + b[..k], b[k]);
      UnbrokenSnoc(b[..k], b[k]);
      assert a + b == a + b[..k] + [b[k]] && b == b[..k] + [b[k]];
      Regroup(Unbroken(a), Unbroken(b[..k]), if b[k] == '\r' || b[k] == '\n' then [] else [b[k]]);
    }
  }

  /** But not the other way round: line breaks are skipped, wherever they stand. */
  lemma BreaksAreSkipped(a: string, breaks: string, b: string)
    requires OnlyBreaks(breaks)
    ensures Decode(a + breaks + b) == Decode(a + b)
  {
    UnbrokenJoin(a + breaks, b);
    UnbrokenJoin(a, breaks);
    UnbrokenJoin(a, b);
    assert Unbroken(a) + [] == Unbroken(a);
  }

  lemma FeedIsSkipped(t: string)
    ensures Decode(t + "\n") == Decode(t)
  {
    BreaksAreSkipped(t, "\n", "");
    assert t + "\n" + "" == t + "\n" && t + "" == t;
  }

  /** How many of the last digit's bits are spare, as a divisor. */
  function Spare(n: nat): nat
    requires n % 4 == 1 || n % 4 == 2
    ensures Spare(n) > 0
  {
    if n % 4 == 1 then 16 else 4
  }

  lemma SpareOf(n: nat)
    requires n % 4 == 1 || n % 4 == 2
    ensures n > 4 ==> (n - 4) % 4 == n % 4 && Spare(n - 4) == Spare(n)
    ensures n <= 4 ==> n == 1 || n == 2
    ensures n == 1 ==> Spare(n) == 16
    ensures n == 2 ==> Spare(n) == 4
  {
  }

  lemma {:induction false} LastDigit(t: string, c: char, d: char)
    requires |t| % 4 == 1 || |t| % 4 == 2
    requires Value(c).Some? && Value(d).Some? && DecodeGroups(t + [c]).Some?
    ensures DecodeGroups(t + [d]) == DecodeGroups(t + [c]) <==> Value(c).value / Spare(|t|) == Value(d).value / Spare(|t|)
  {
    hide Value, DecodeGroups, Spare;
    SpareOf(|t|);
    if |t| > 4 {
      SameFirstGroup(t, c, d);
      LastDigit(t[4..], c, d);
    } else if |t| == 1 {
      assert t == [t[0]];
      PairGroup(t[0], c, d);
    } else {
      assert t == [t[0], t[1]];
      TripleGroup(t[0], t[1], c, d);
    }
  }

  /** The bytes of a whole group. */
  function GroupBytes(t: string): Option<string>
    requires |t| == 4
  {
    var p, q, r, u := Value(t[0]), Value(t[1]), Value(t[2]), Value(t[3]);
    if p == None || q == None || r == None || u == None then None
    else Some([Byte(p.value * 4 + q.value / 16), Byte(q.value % 16 * 16 + r.value / 4), Byte(r.value % 4 * 64 + u.value)])
  }

  lemma {:induction false} GroupStep(t: string)
    requires |t| >= 4
    ensures var g, rest := GroupBytes(t[..4]), DecodeGroups(t[4..]);
      && (g.Some? ==> |g.value| == 3)
      && DecodeGroups(t) == if g == None || rest == None then None else Some(g.value + rest.value)
  {
    hide Value;
  }

  lemma {:induction false} SameFirstGroup(t: string, c: char, d: char)
    requires |t| > 4 && DecodeGroups(t + [c]).Some?
    ensures DecodeGroups(t[4..] + [c]).Some?
    ensures DecodeGroups(t + [d]) == DecodeGroups(t + [c]) <==> DecodeGroups(t[4..] + [d]) == DecodeGroups(t[4..] + [c])
  {
    hide DecodeGroups, GroupBytes;
    GroupStep(t + [c]);
    GroupStep(t + [d]);
    assert (t + [c])[4..] == t[4..] + [c] && (t + [d])[4..] == t[4..] + [d];
    assert (t + [c])[..4] == t[..4] == (t + [d])[..4];
    var x, y, w := DecodeGroups(t[4..] + [c]), DecodeGroups(t[4..] + [d]), GroupBytes(t[..4]).value;
    if y.Some? {
      assert (w + x.value)[3..] == x.value && (w + y.value)[3..] == y.value;
    }
  }

  lemma ByteInjective(v: nat, w: nat)
    requires v < 256 && w < 256
    ensures Byte(v) == Byte(w) <==> v == w
  {
    assert Byte(v) as int == v && Byte(w) as int == w;
  }

  lemma PairDecodes(x: char, c: char)
    requires DecodeGroups([x] + [c]).Some?
    ensures Value(x).Some? && Value(c).Some?
    ensures forall d :: Value(d).Some? ==> DecodeGroups([x] + [d]) == Some([Byte(Value(x).value * 4 + Value(d).value / 16)])
  {
    hide Value;
  }

  lemma TripleDecodes(x: char, y: char, c: char)
    requires DecodeGroups([x, y] + [c]).Some?
    ensures Value(x).Some? && Value(y).Some? && Value(c).Some?
    ensures forall d :: Value(d).Some? ==>
      DecodeGroups([x, y] + [d]) ==
        Some([Byte(Value(x).value * 4 + Value(y).value / 16), Byte(Value(y).value % 16 * 16 + Value(d).value / 4)])
  {
    hide Value;
  }

  lemma PairByte(p: nat, v: nat, w: nat)
    requires p < 64 && v < 64 && w < 64
    ensures Some([Byte(p * 4 + v / 16)]) == Some([Byte(p * 4 + w / 16)]) <==> v / 16 == w / 16
  {
    ByteInjective(p * 4 + v / 16, p * 4 + w / 16);
    hide Byte;
    assert [Byte(p * 4 + v / 16)][0] == Byte(p * 4 + v / 16);
  }

  lemma TripleByte(a: char, q: nat, v: nat, w: nat)
    requires q < 64 && v < 64 && w < 64
    ensures Some([a, Byte(q % 16 * 16 + v / 4)]) == Some([a, Byte(q % 16 * 16 + w / 4)]) <==> v / 4 == w / 4
  {
    ByteInjective(q % 16 * 16 + v / 4, q % 16 * 16 + w / 4);
    hide Byte;
    assert [a, Byte(q % 16 * 16 + v / 4)][1] == Byte(q % 16 * 16 + v / 4);
  }

  lemma PairGroup(x: char, c: char, d: char)
    requires Value(c).Some? && Value(d).Some? && DecodeGroups([x] + [c]).Some?
    ensures DecodeGroups([x] + [d]) == DecodeGroups([x] + [c]) <==> Value(c).value / 16 == Value(d).value / 16
  {
    hide Value, DecodeGroups, Byte;
    PairDecodes(x, c);
    PairByte(Value(x).value, Value(c).value, Value(d).value);
  }

  lemma TripleGroup(x: char, y: char, c: char, d: char)
    requires Value(c).Some? && Value(d).Some? && DecodeGroups([x, y] + [c]).Some?
    ensures DecodeGroups([x, y] + [d]) == DecodeGroups([x, y] + [c]) <==> Value(c).value / 4 == Value(d).value / 4
  {
    hide Value, DecodeGroups, Byte;
    TripleDecodes(x, y, c);
    TripleByte(Byte(Value(x).value * 4 + Value(y).value / 16), Value(y).value, Value(c).value, Value(d).value);
  }

  /** And spare bits are ignored: two texts that end in different digits of an incomplete group decode to
      the same bytes exactly when the digits agree in the bits that count. */
  lemma {:induction false} SpareBitsAreIgnored(t: string, c: char, d: char)
    requires |Unbroken(t)| % 4 == 1 || |Unbroken(t)| % 4 == 2
    requires Value(c).Some? && Value(d).Some? && Decode(t + [c]).Some?
    ensures Decode(t + [d]) == Decode(t + [c]) <==>
      Value(c).value / Spare(|Unbroken(t)|) == Value(d).value / Spare(|Unbroken(t)|)
  {
    UnbrokenJoin(t, [c]);
    UnbrokenJoin(t, [d]);
    assert Unbroken([c]) == [c] && Unbroken([d]) == [d] by { DigitIsUnbroken(c); DigitIsUnbroken(d); }
    LastDigit(Unbroken(t), c, d);
  }

  lemma DigitIsUnbroken(c: char)
    requires Value(c).Some?
    ensures Unbroken([c]) == [c]
  {
    assert [c][..0] == [] && [] + [c] == [c];
  }

  // ---------------------------------------------------------------- signed decimals

  const MIN_INT64: int := -0x8000_0000_0000_0000
  const MAX_INT64: int := 0x7fff_ffff_ffff_ffff

  predicate IsInt64(n: int) {
    MIN_INT64 <= n <= MAX_INT64
  }

  function Digits(n: nat): string {
    if n < 10 then [('0' as int + n) as char] else Digits(n / 10) + [('0' as int + n % 10) as char]
  }

  function FormatInt(n: int): string {
    if n < 0 then "-" + Digits(-n) else Digits(n)
  }

  function ParseDigits(s: string): Option<nat> {
    if s == [] then Some(0)
    else
      var k := |s| - 1;
      var before := ParseDigits(s[..k]);
      if before == None || !('0' <= s[k] <= '9') then None
      else Some(before.value * 10 + (s[k] as int - '0' as int))
  }

  /** ParseInt(s, 10, 64): an optional sign, at least one digit, and the range of int64. */
  function ParseInt(s: string): Option<int> {
    if s == [] then None
    else
      var signed := s[0] == '-' || s[0] == '+';
      var digits := if signed then s[1..] else s;
      var v := ParseDigits(digits);
      if digits == [] || v == None then None
      else
        var n := if s[0] == '-' then -(v.value as int) else v.value;
        if IsInt64(n) then Some(n) else None
  }

  lemma {:induction false} DigitsParse(n: nat)
    ensures ParseDigits(Digits(n)) == Some(n) && Digits(n) != []
    ensures forall i :: 0 <= i < |Digits(n)| ==> '0' <= Digits(n)[i] <= '9'
  {
    var s := Digits(n);
    if n < 10 {
      assert s[..0] == [];
    } else {
      DigitsParse(n / 10);
      assert s[..|s| - 1] == Digits(n / 10);
    }
  }

  /** What is printed is parsed, over the whole range of int64, negative numbers included. */
  lemma ParseOfFormat(n: int)
    requires IsInt64(n)
    ensures ParseInt(FormatInt(n)) == Some(n)
    ensures IsBytes(FormatInt(n)) && ':' !in FormatInt(n) && FormatInt(n) != []
  {
    DigitsParse(if n < 0 then -n else n);
    if n < 0 {
      assert FormatInt(n)[1..] == Digits(-n);
    }
  }

  /** Decimals as they are written: the most significant digit first, no leading zero, a sign for
      negative numbers only. */
  lemma {:induction false} DigitsAreDecimal(n: nat)
    ensures n > 0 ==> Digits(n)[0] != '0'
    ensures Digits(n)[|Digits(n)| - 1] as int == '0' as int + n % 10
    ensures |Digits(n)| > 1 ==> n >= 10 && ParseDigits(Digits(n)[..|Digits(n)| - 1]) == Some(n / 10)
  {
    if n >= 10 {
      DigitsAreDecimal(n / 10);
      DigitsParse(n / 10);
      assert Digits(n)[..|Digits(n)| - 1] == Digits(n / 10);
    }
  }

  lemma {:induction false} DigitsOnly(s: string, v: nat)
    requires ParseDigits(s) == Some(v)
    ensures forall i :: 0 <= i < |s| ==> '0' <= s[i] <= '9'
  {
    if s != [] {
      DigitsOnly(s[..|s| - 1], ParseDigits(s[..|s| - 1]).value);
    }
  }

  /** Signs and range: a text of digits is read, with or without a sign, as far as its value is a signed
      64-bit number; a sign alone, or nothing, is not. */
  lemma {:induction false} ParseIntRange(s: string, v: nat)
    requires ParseDigits(s) == Some(v) && s != []
    ensures ParseInt(s) == (if v <= 9_223_372_036_854_775_807 then Some(v) else None) == ParseInt("+" + s)
    ensures ParseInt("-" + s) == if v <= 9_223_372_036_854_775_808 then Some(-(v as int)) else None
    ensures ParseInt("") == ParseInt("+") == ParseInt("-") == None
  {
    DigitsOnly(s, v);
    hide ParseDigits;
    assert '0' <= s[0] <= '9';
    assert ("+" + s)[1..] == s && ("-" + s)[1..] == s;
  }

  // ---------------------------------------------------------------- splitting

  /** The first position of a char, or -1. */
  function IndexOf(s: string, c: char): int {
    if s == [] then -1
    else
      var k := |s| - 1;
      var i := IndexOf(s[..k], c);
      if i >= 0 then i else if s[k] == c then k else -1
  }

  lemma {:induction false} IndexOfMeans(s: string, c: char)
    ensures var i := IndexOf(s, c);
      if c in s then 0 <= i < |s| && s[i] == c && forall k :: 0 <= k < i ==> s[k] != c else i == -1
  {
    if s != [] {
      IndexOfMeans(s[..|s| - 1], c);
      assert s == s[..|s| - 1] + [s[|s| - 1]];
    }
  }

  method FindIndex(s: string, c: char) returns (i: int)
    ensures i == IndexOf(s, c)
  {
    IndexOfMeans(s, c);
    for j := 0 to |s|
      invariant forall k :: 0 <= k < j ==> s[k] != c
    {
      if s[j] == c {
        return j;
      }
    }
    i := -1;
  }

  /** A text without the separator, in front of it. */
  lemma {:induction false} SplitAt(a: string, b: string, c: char)
    requires c !in a
    ensures IndexOf(a + [c] + b, c) == |a|
    ensures (a + [c] + b)[..|a|] == a && (a + [c] + b)[|a| + 1..] == b
  {
    var s := a + [c] + b;
    IndexOfMeans(s, c);
    assert s[|a|] == c && forall k :: 0 <= k < |a| ==> s[k] == a[k];
    assert s[..|a|] == a;
  }
}
