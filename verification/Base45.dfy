/**
  Section 4 of RFC 9285, and the two independent implementations of it: the codec's own and the one
  the fixture generator uses.  The alphabet contains SPACE and a space is data, so nothing is trimmed.
 */
module Rfc9285 {
  import opened Common

  const ALPHABET: string := "0123456789" + "ABCDEFGHIJKLMNOPQRSTUVWXYZ" + " $%*+-./:"

  const BASE: nat := 45

  /** `ALPHABET[v]`, as `SymbolIsAlphabet` proves, in a form cheap to reason about. */
  function Symbol(v: nat): (c: char)
    requires v < BASE
  {
    if v < 10 then '0' + v as char
    else if v < 36 then 'A' + (v - 10) as char
    else
      match v
      case 36 => ' ' case 37 => '$' case 38 => '%' case 39 => '*' case 40 => '+'
      case 41 => '-' case 42 => '.' case 43 => '/' case _ => ':'
  }

  /** The index of `c` in the alphabet, or None for a foreign character. */
  function ValueOf(c: char): (r: Option<nat>)
    ensures r.Some? ==> r.value < BASE && Symbol(r.value) == c
    ensures forall v: nat :: v < BASE && Symbol(v) == c ==> r == Some(v)
  {
    if '0' <= c <= '9' then Some((c - '0') as int)
    else if 'A' <= c <= 'Z' then Some((c - 'A') as int + 10)
    else
      match c
      case ' ' => Some(36) case '$' => Some(37) case '%' => Some(38) case '*' => Some(39) case '+' => Some(40)
      case '-' => Some(41) case '.' => Some(42) case '/' => Some(43) case ':' => Some(44) case _ => None
  }

  lemma SymbolIsAlphabet(v: nat)
    requires v < BASE
    ensures |ALPHABET| == BASE && ALPHABET[v] == Symbol(v)
  {
    if v < 10 {
      assert ALPHABET[v] == "0123456789"[v];
    } else if v < 36 {
      assert ALPHABET[v] == "ABCDEFGHIJKLMNOPQRSTUVWXYZ"[v - 10];
    } else {
      assert ALPHABET[v] == " $%*+-./:"[v - 36];
    }
  }

  /** Two bytes as three characters: the RFC's `n = c + d*45 + e*45*45`, least significant first. */
  function EncodePair(a: Byte, b: Byte): (s: string)
    ensures |s| == 3
  {
    var n := a * 256 + b;
    [Symbol(n % 45), Symbol(n / 45 % 45), Symbol(n / 2025)]
  }

  function EncodeLast(a: Byte): (s: string)
    ensures |s| == 2
  {
    [Symbol(a % 45), Symbol(a / 45)]
  }

  function Encode(bytes: seq<Byte>): (s: string) {
    if bytes == [] then []
    else if |bytes| == 1 then EncodeLast(bytes[0])
    else EncodePair(bytes[0], bytes[1]) + Encode(bytes[2..])
  }

  /** One turn of an encoder's loop. */
  lemma EncodeStep(bytes: seq<Byte>, at: nat)
    requires at + 1 < |bytes|
    ensures Encode(bytes[at..]) == EncodePair(bytes[at], bytes[at + 1]) + Encode(bytes[at + 2..])
  {
  }

  lemma EncodeWhole(bytes: seq<Byte>)
    ensures bytes[0..] == bytes && Encode(bytes[|bytes|..]) == ""
    ensures |bytes| > 0 ==> Encode(bytes[|bytes| - 1..]) == EncodeLast(bytes[|bytes| - 1])
  {
  }

  function DecodeTriple(s: string): (r: Option<seq<Byte>>)
    requires |s| == 3
  {
    match (ValueOf(s[0]), ValueOf(s[1]), ValueOf(s[2]))
    case (Some(c), Some(d), Some(e)) =>
      var n := c + d * 45 + e * 2025;
      if n > 0xFFFF then None else Some([n / 256, n % 256])
    case _ => None
  }

  function DecodeTail(s: string): (r: Option<seq<Byte>>)
    requires |s| == 2
  {
    match (ValueOf(s[0]), ValueOf(s[1]))
    case (Some(c), Some(d)) =>
      var n := c + d * 45;
      if n > 0xFF then None else Some([n])
    case _ => None
  }

  function Decode(s: string): (r: Option<seq<Byte>>) {
    if s == [] then Some([])
    else if |s| == 1 then None
    else if |s| == 2 then DecodeTail(s)
    else
      match (DecodeTriple(s[..3]), Decode(s[3..]))
      case (Some(head), Some(tail)) => Some(head + tail)
      case _ => None
  }

  /** `Decode(s) == Prefixed(done, Decode(rest))` is what a decoder's loop keeps. */
  function Prefixed(done: seq<Byte>, rest: Option<seq<Byte>>): Option<seq<Byte>> {
    match rest case Some(tail) => Some(done + tail) case None => None
  }

  /** One turn of a decoder's loop. */
  lemma DecodeStep(s: string, at: nat, c: nat, d: nat, e: nat, done: seq<Byte>)
    requires at + 2 < |s|
    requires ValueOf(s[at]) == Some(c) && ValueOf(s[at + 1]) == Some(d) && ValueOf(s[at + 2]) == Some(e)
    ensures var n := c + d * 45 + e * 2025;
            Prefixed(done, Decode(s[at..])) ==
            if n > 0xFFFF then None else Prefixed(done + [n / 256, n % 256], Decode(s[at + 3..]))
  {
    hide ValueOf;
    var rest, n := s[at..], c + d * 45 + e * 2025;
    assert rest[..3] == [s[at], s[at + 1], s[at + 2]] && rest[3..] == s[at + 3..];
    if n <= 0xFFFF && Decode(s[at + 3..]).Some? {
      var tail := Decode(s[at + 3..]).value;
      assert done + ([n / 256, n % 256] + tail) == (done + [n / 256, n % 256]) + tail;
    }
  }

  lemma DecodeTailStep(s: string, at: nat, c: nat, d: nat, done: seq<Byte>)
    requires at + 2 == |s| && ValueOf(s[at]) == Some(c) && ValueOf(s[at + 1]) == Some(d)
    ensures var n := c + d * 45;
            Prefixed(done, Decode(s[at..])) == if n > 0xFF then None else Some(done + [n])
  {
  }

  lemma DecodeEnd(s: string, done: seq<Byte>)
    ensures Prefixed(done, Decode(s[|s|..])) == Some(done)
  {
    assert s[|s|..] == [] && done + [] == done;
  }

  lemma DecodeWhole(s: string)
    ensures Prefixed([], Decode(s[0..])) == Decode(s)
  {
    assert s[0..] == s;
    assert forall t: seq<Byte> :: [] + t == t;
  }

  lemma PairRoundTrip(a: Byte, b: Byte)
    ensures DecodeTriple(EncodePair(a, b)) == Some([a, b])
  {
    hide ValueOf, Symbol;
    var n: nat := a as int * 256 + b as int;
    Digits45(n);
    assert n / 256 == a as int && n % 256 == b as int;
  }

  lemma LastRoundTrip(a: Byte)
    ensures DecodeTail(EncodeLast(a)) == Some([a])
  {
  }

  /** Decoding undoes encoding on every byte string. */
  lemma {:induction false} DecodeAfterEncode(bytes: seq<Byte>)
    ensures Decode(Encode(bytes)) == Some(bytes)
  {
    if bytes == [] {
    } else if |bytes| == 1 {
      LastRoundTrip(bytes[0]);
      assert bytes == [bytes[0]];
    } else {
      PairRoundTrip(bytes[0], bytes[1]);
      DecodeAfterEncode(bytes[2..]);
      var s := Encode(bytes);
      assert s[..3] == EncodePair(bytes[0], bytes[1]) && s[3..] == Encode(bytes[2..]);
      assert bytes == [bytes[0], bytes[1]] + bytes[2..];
    }
  }

  /** The three base-45 digits of a 16-bit number, and back. */
  lemma Digits45(n: nat)
    requires n <= 0xFFFF
    ensures n / 2025 < BASE && n / 45 == n / 2025 * 45 + n / 45 % 45
    ensures n == n % 45 + n / 45 % 45 * 45 + n / 2025 * 2025
  {
  }

  lemma DigitsOf(c: nat, d: nat, e: nat)
    requires c < BASE && d < BASE && e < BASE
    ensures var n := c + d * 45 + e * 2025; n % 45 == c && n / 45 % 45 == d && n / 2025 == e
  {
  }

  lemma TripleCanonical(s: string)
    requires |s| == 3 && DecodeTriple(s).Some?
    ensures var pair := DecodeTriple(s).value; |pair| == 2 && EncodePair(pair[0], pair[1]) == s
  {
    hide ValueOf, Symbol;
    var c, d, e := ValueOf(s[0]).value, ValueOf(s[1]).value, ValueOf(s[2]).value;
    var n := c + d * 45 + e * 2025;
    DigitsOf(c, d, e);
    assert n == n / 256 * 256 + n % 256;
  }

  lemma TailCanonical(s: string)
    requires |s| == 2 && DecodeTail(s).Some?
    ensures var one := DecodeTail(s).value; |one| == 1 && EncodeLast(one[0]) == s
  {
  }

  /** Every accepted text is the one encoding of what it decodes to. */
  lemma {:induction false} EncodeAfterDecode(s: string)
    requires Decode(s).Some?
    ensures Encode(Decode(s).value) == s
  {
    if s == [] {
    } else if |s| == 2 {
      TailCanonical(s);
    } else {
      TripleCanonical(s[..3]);
      EncodeAfterDecode(s[3..]);
      var pair, rest := DecodeTriple(s[..3]).value, Decode(s[3..]).value;
      assert (pair + rest)[2..] == rest;
      assert s == s[..3] + s[3..];
    }
  }

  /** Three characters per two bytes, two for an odd last byte, and never a space at the end. */
  lemma {:induction false} EncodingShape(bytes: seq<Byte>)
    ensures |Encode(bytes)| == 3 * (|bytes| / 2) + 2 * (|bytes| % 2)
    ensures bytes != [] ==> Encode(bytes)[|Encode(bytes)| - 1] != ' '
  {
    if |bytes| >= 2 {
      EncodingShape(bytes[2..]);
      assert |bytes| / 2 == |bytes[2..]| / 2 + 1 && |bytes| % 2 == |bytes[2..]| % 2;
    }
  }

  lemma GroupRejects(s: string, k: nat)
    requires 2 <= |s| <= 3 && k < |s| && ValueOf(s[k]).None?
    ensures |s| == 3 ==> DecodeTriple(s).None?
    ensures |s| == 2 ==> DecodeTail(s).None?
  {
  }

  /** A text is refused for a refused group. */
  lemma GroupsDecide(s: string)
    ensures |s| == 1 ==> Decode(s).None?
    ensures |s| == 2 && DecodeTail(s).None? ==> Decode(s).None?
    ensures |s| >= 3 && (DecodeTriple(s[..3]).None? || Decode(s[3..]).None?) ==> Decode(s).None?
  {
    hide DecodeTriple, DecodeTail;
  }

  lemma {:induction false} BadLengthRejects(s: string)
    requires |s| % 3 == 1
    ensures Decode(s).None?
  {
    hide Decode;
    GroupsDecide(s);
    if |s| >= 3 {
      BadLengthRejects(s[3..]);
    }
  }

  lemma {:induction false} ForeignRejects(s: string, k: nat)
    requires k < |s| && ValueOf(s[k]).None?
    ensures Decode(s).None?
  {
    hide Decode, ValueOf, DecodeTriple, DecodeTail;
    GroupsDecide(s);
    if |s| == 2 {
      GroupRejects(s, k);
    } else if |s| >= 3 && k < 3 {
      assert s[..3][k] == s[k];
      GroupRejects(s[..3], k);
    } else if |s| >= 3 {
      assert s[3..][k - 3] == s[k];
      ForeignRejects(s[3..], k - 3);
    }
  }

  /** The rejections that do not depend on a group's value: a bad length, a foreign character. */
  lemma DecodeRejects(s: string)
    requires |s| % 3 == 1 || exists k :: 0 <= k < |s| && ValueOf(s[k]).None?
    ensures Decode(s).None?
  {
    hide Decode, ValueOf;
    if |s| % 3 == 1 {
      BadLengthRejects(s);
    } else {
      var k :| 0 <= k < |s| && ValueOf(s[k]).None?;
      ForeignRejects(s, k);
    }
  }

  // --- the published vectors -----------------------------------------------------------------------

  lemma TwoAndRest(a: Byte, b: Byte, rest: seq<Byte>)
    ensures Encode([a, b] + rest) == EncodePair(a, b) + Encode(rest)
  {
    assert ([a, b] + rest)[2..] == rest;
  }

  lemma OfThree(a: Byte, b: Byte, c: Byte)
    ensures Encode([a, b, c]) == EncodePair(a, b) + EncodeLast(c)
  {
    TwoAndRest(a, b, [c]);
    EncodeOne(c);
    assert [a, b] + [c] == [a, b, c];
  }

  lemma OfFive(a: Byte, b: Byte, c: Byte, d: Byte, e: Byte)
    ensures Encode([a, b, c, d, e]) == EncodePair(a, b) + EncodePair(c, d) + EncodeLast(e)
  {
    hide Encode;
    TwoAndRest(a, b, [c, d, e]);
    OfThree(c, d, e);
    assert [a, b] + [c, d, e] == [a, b, c, d, e];
  }

  lemma OfSeven(a: Byte, b: Byte, c: Byte, d: Byte, e: Byte, f: Byte, g: Byte)
    ensures Encode([a, b, c, d, e, f, g]) == EncodePair(a, b) + EncodePair(c, d) + EncodePair(e, f) + EncodeLast(g)
  {
    hide Encode;
    TwoAndRest(a, b, [c, d, e, f, g]);
    OfFive(c, d, e, f, g);
    assert [a, b] + [c, d, e, f, g] == [a, b, c, d, e, f, g];
  }

  lemma PairIs(a: Byte, b: Byte, c: nat, d: nat, e: nat)
    requires a as int * 256 + b as int == c + d * 45 + e * 2025 && c < BASE && d < BASE && e < BASE
    ensures EncodePair(a, b) == [Symbol(c), Symbol(d), Symbol(e)]
  {
    DigitsOf(c, d, e);
    hide Symbol;
  }

  lemma EncodeOne(a: Byte)
    ensures Encode([a]) == EncodeLast(a) && Encode([]) == ""
  {
  }

  /** `AB` is `BB8`: RFC 9285, section 4.3. */
  lemma PublishedAB()
    ensures Encode([65, 66]) == "BB8" && Decode("BB8") == Some([65, 66])
  {
    hide Encode, Decode, EncodePair;
    DecodeAfterEncode([65, 66]);
    TwoAndRest(65, 66, []);
    EncodeOne(0);
    assert [65, 66] + [] == [65, 66];
    PairIs(65, 66, 11, 11, 8);
  }

  /** `Hello!!`, whose encoding holds a space. */
  lemma PublishedHello()
    ensures Encode([72, 101, 108, 108, 111, 33, 33]) == "%69 VD92EX0"
  {
    hide Encode, Decode, EncodePair;
    OfSeven(72, 101, 108, 108, 111, 33, 33);
    PairIs(72, 101, 38, 6, 9);
    PairIs(108, 108, 36, 31, 13);
    PairIs(111, 33, 9, 2, 14);
    assert EncodeLast(33) == "X0";
  }

  /** `base-45`. */
  lemma PublishedBase()
    ensures Encode([98, 97, 115, 101, 45, 52, 53]) == "UJCLQE7W581"
  {
    hide Encode, Decode, EncodePair;
    OfSeven(98, 97, 115, 101, 45, 52, 53);
    PairIs(98, 97, 30, 19, 12);
    PairIs(115, 101, 21, 26, 14);
    PairIs(45, 52, 7, 32, 5);
    assert EncodeLast(53) == "81";
  }

  /** `ietf!`: section 4.4. */
  lemma PublishedIetf()
    ensures Encode([105, 101, 116, 102, 33]) == "QED8WEX0"
  {
    hide Encode, Decode, EncodePair;
    OfFive(105, 101, 116, 102, 33);
    PairIs(105, 101, 26, 14, 13);
    PairIs(116, 102, 8, 32, 14);
    assert EncodeLast(33) == "X0";
  }

  /** `GGW` overflows two bytes: section 6. */
  lemma PublishedOverflow()
    ensures Decode("GGW") == None
  {
    assert "GGW"[..3] == "GGW";
    assert DecodeTriple("GGW") == None;
  }
}

/** The vendored implementation the apps ship. */
module Base45 {
  import opened Common
  import opened Rfc9285

  method ToBase45(bytes: seq<Byte>) returns (out: string)
    ensures out == Encode(bytes)
  {
    hide Encode, Symbol;
    EncodeWhole(bytes);
    out := "";
    var index := 0;
    while index + 1 < |bytes|
      invariant 0 <= index <= |bytes|
      invariant out + Encode(bytes[index..]) == Encode(bytes)
    {
      var value: int := bytes[index] as int * 256 + bytes[index + 1] as int;
      ghost var n := value;
      var c := value / 2025;
      value := value - c * 2025;
      var d := value / 45;
      assert value == n % 2025 && d == n / 45 % 45 && value - d * 45 == n % 45 by { Digits45(n); }
      var group := [Symbol(value - d * 45)] + [Symbol(d)] + [Symbol(c)];
      EncodeStep(bytes, index);
      assert out + (group + Encode(bytes[index + 2..])) == (out + group) + Encode(bytes[index + 2..]);
      out := out + group;
      index := index + 2;
    }
    if index < |bytes| {
      var value := bytes[index];
      var d := value / 45;
      out := out + [Symbol(value - d * 45)] + [Symbol(d)];
    }
  }

  method FromBase45(s: string) returns (r: Result<seq<Byte>>)
    ensures r == match Decode(s) case Some(bytes) => Ok(bytes) case None => Err(WIRE_BASE45_INVALID)
  {
    hide Decode, ValueOf, Symbol;
    if |s| % 3 == 1 {
      DecodeRejects(s);
      return Err(WIRE_BASE45_INVALID);
    }
    var digits := new nat[|s|];
    for index := 0 to |s|
      invariant forall k :: 0 <= k < index ==> ValueOf(s[k]) == Some(digits[k])
    {
      var value := ValueOf(s[index]);
      if value.None? {
        DecodeRejects(s);
        return Err(WIRE_BASE45_INVALID);
      }
      digits[index] := value.value;
    }
    var out := new Byte[|s| / 3 * 2 + if |s| % 3 == 2 then 1 else 0];
    var at, index := 0, 0;
    DecodeWhole(s);
    assert out[..0] == [];
    while index + 2 < |s|
      invariant 0 <= index <= |s| && 3 * at == 2 * index && at <= out.Length
      invariant forall k :: 0 <= k < |s| ==> ValueOf(s[k]) == Some(digits[k])
      invariant Decode(s) == Prefixed(out[..at], Decode(s[index..]))
    {
      var value := digits[index] + digits[index + 1] * 45 + digits[index + 2] * 2025;
      ghost var done := out[..at];
      DecodeStep(s, index, digits[index], digits[index + 1], digits[index + 2], done);
      if value > 0xFFFF {
        return Err(WIRE_BASE45_INVALID);
      }
      out[at], out[at + 1] := value / 256, value % 256;
      assert out[..at + 2] == done + [value / 256, value % 256];
      at := at + 2;
      index := index + 3;
    }
    if index < |s| {
      var value := digits[index] + digits[index + 1] * 45;
      DecodeTailStep(s, index, digits[index], digits[index + 1], out[..at]);
      if value > 0xFF {
        return Err(WIRE_BASE45_INVALID);
      }
      ghost var done := out[..at];
      out[at] := value;
      assert out[..at + 1] == done + [value];
      at := at + 1;
    } else {
      DecodeEnd(s, out[..at]);
    }
    assert out[..at] == out[..];
    r := Ok(out[..]);
  }
}

/** The fixture generator's own implementation, written separately from the same standard. */
module FixtureBase45 {
  import opened Common
  import opened Rfc9285

  method ToBase45(bytes: seq<Byte>) returns (out: string)
    ensures out == Encode(bytes)
  {
    hide Encode, Symbol;
    EncodeWhole(bytes);
    out := "";
    var i := 0;
    ghost var turns := 0;
    while i + 1 < |bytes|
      invariant 0 <= i <= |bytes| && i == 2 * turns
      invariant out + Encode(bytes[i..]) == Encode(bytes)
    {
      var n := bytes[i] as int * 256 + bytes[i + 1] as int;
      var group := [Symbol(n % 45)] + [Symbol(n / 45 % 45)] + [Symbol(n / 2025)];
      assert group == EncodePair(bytes[i], bytes[i + 1]);
      EncodeStep(bytes, i);
      assert out + (group + Encode(bytes[i + 2..])) == (out + group) + Encode(bytes[i + 2..]);
      out := out + group;
      i := i + 2;
      turns := turns + 1;
    }
    if |bytes| % 2 == 1 {
      var b := bytes[|bytes| - 1];
      out := out + [Symbol(b % 45)] + [Symbol(b / 45)];
    }
  }

  method FromBase45(text: string) returns (r: Result<seq<Byte>>)
    ensures r == match Decode(text) case Some(bytes) => Ok(bytes) case None => Err(WIRE_BASE45_INVALID)
  {
    hide Decode, ValueOf, Symbol;
    if |text| % 3 == 1 {
      DecodeRejects(text);
      return Err(WIRE_BASE45_INVALID);
    }
    var values: seq<nat> := [];
    for k := 0 to |text|
      invariant |values| == k
      invariant forall j :: 0 <= j < k ==> ValueOf(text[j]) == Some(values[j])
    {
      var value := ValueOf(text[k]);
      if value.None? {
        DecodeRejects(text);
        return Err(WIRE_BASE45_INVALID);
      }
      values := values + [value.value];
    }
    var out: seq<Byte> := [];
    var i := 0;
    ghost var turns := 0;
    DecodeWhole(text);
    while i < |values|
      invariant 0 <= i <= |text| && (i == 3 * turns || i == |text|)
      invariant Decode(text) == Prefixed(out, Decode(text[i..]))
    {
      if i + 2 < |values| {
        var n := values[i] + values[i + 1] * 45 + values[i + 2] * 2025;
        DecodeStep(text, i, values[i], values[i + 1], values[i + 2], out);
        if n > 0xFFFF {
          return Err(WIRE_BASE45_INVALID);
        }
        out := out + [n / 256, n % 256];
        i := i + 3;
        turns := turns + 1;
      } else {
        var n := values[i] + values[i + 1] * 45;
        DecodeTailStep(text, i, values[i], values[i + 1], out);
        if n > 0xFF {
          return Err(WIRE_BASE45_INVALID);
        }
        out := out + [n];
        DecodeEnd(text, out);
        i := |values|;
      }
    }
    DecodeEnd(text, out);
    r := Ok(out);
  }
}
