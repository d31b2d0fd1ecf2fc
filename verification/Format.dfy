/** Amounts: base units in the protocol, decimal text at the edges, and nothing rounded in between. */
module Format {
  import opened Common

  predicate IsDigit(c: char) {
    '0' <= c <= '9'
  }

  predicate AllDigits(s: string) {
    forall k :: 0 <= k < |s| ==> IsDigit(s[k])
  }

  /** JavaScript's WhiteSpace and LineTerminator, the characters `trim` removes. */
  predicate IsSpace(c: char) {
    var n := c as int;
    9 <= n <= 13 || n == 32 || n == 160 || n == 0x1680 || 0x2000 <= n <= 0x200A || n == 0x2028 || n == 0x2029
    || n == 0x202F || n == 0x205F || n == 0x3000 || n == 0xFEFF
  }

  function Trim(s: string): string {
    if s == "" then s
    else if IsSpace(s[0]) then Trim(s[1..])
    else if IsSpace(s[|s| - 1]) then Trim(s[..|s| - 1])
    else s
  }

  /** `n.toString()`. */
  function Digits(n: nat): (s: string)
    ensures |s| > 0 && AllDigits(s)
  {
    var last := '0' + (n % 10) as char;
    if n < 10 then [last] else Digits(n / 10) + [last]
  }

  /** `BigInt(s)` on a string of digits. */
  function NumberOf(s: string): (n: nat)
    requires AllDigits(s)
  {
    if s == "" then 0 else 10 * NumberOf(s[..|s| - 1]) + (s[|s| - 1] - '0') as int
  }

  function Zeros(n: nat): (s: string)
    ensures |s| == n && AllDigits(s) && forall k :: 0 <= k < n ==> s[k] == '0'
  {
    seq(n, _ => '0')
  }

  function PadStart(s: string, n: nat): (r: string)
    ensures |r| == if |s| >= n then |s| else n
  {
    if |s| >= n then s else Zeros(n - |s|) + s
  }

  function PadEnd(s: string, n: nat): (r: string)
    ensures |r| == if |s| >= n then |s| else n
  {
    if |s| >= n then s else s + Zeros(n - |s|)
  }

  /** `s.replace(/0+$/, '')`. */
  function TrimZeros(s: string): (r: string)
    ensures r <= s && (r != "" ==> r[|r| - 1] != '0')
    ensures forall k :: |r| <= k < |s| ==> s[k] == '0'
  {
    if s != "" && s[|s| - 1] == '0' then TrimZeros(s[..|s| - 1]) else s
  }

  function FormatDigits(n: nat, decimals: nat): (s: string)
    ensures |s| > decimals
  {
    PadStart(Digits(n), decimals + 1)
  }

  function FormatWhole(n: nat, decimals: nat): string {
    var digits := FormatDigits(n, decimals);
    digits[..|digits| - decimals]
  }

  function FormatFraction(n: nat, decimals: nat): string {
    var digits := FormatDigits(n, decimals);
    if decimals == 0 then "" else TrimZeros(digits[|digits| - decimals..])
  }

  function Joined(whole: string, fraction: string): string {
    if fraction == "" then whole else whole + "." + fraction
  }

  function FormatAmount(base: int, decimals: nat): (s: string) {
    var n := if base < 0 then -base else base;
    (if base < 0 then "-" else "") + Joined(FormatWhole(n, decimals), FormatFraction(n, decimals))
  }

  /** Index of the first '.', or the length when there is none. */
  function DotAt(s: string): (d: nat)
    ensures d <= |s| && (d < |s| ==> s[d] == '.') && forall k :: 0 <= k < d ==> s[k] != '.'
  {
    if s == "" || s[0] == '.' then 0 else 1 + DotAt(s[1..])
  }

  function WholeOf(s: string): string {
    s[..DotAt(s)]
  }

  function FractionOf(s: string): string {
    if DotAt(s) < |s| then s[DotAt(s) + 1..] else ""
  }

  function ParseAmount(text: string, decimals: nat): (r: Option<int>) {
    var trimmed := Trim(text);
    var whole, fraction := WholeOf(trimmed), FractionOf(trimmed);
    if !(AllDigits(whole) && AllDigits(fraction)) || trimmed == "" || trimmed == "." then None
    else if |fraction| > decimals then None
    else
      var base := NumberOf((if whole == "" then "0" else whole) + PadEnd(fraction, decimals));
      if base > U64_MAX then None else Some(base)
  }

  // --- digit strings -------------------------------------------------------------------------------

  lemma {:induction false} DigitsValue(n: nat)
    ensures NumberOf(Digits(n)) == n
  {
    if n >= 10 {
      DigitsValue(n / 10);
      assert Digits(n)[..|Digits(n)| - 1] == Digits(n / 10);
    } else {
      assert Digits(n)[..0] == "";
    }
  }

  lemma {:induction false} LeadingZeros(n: nat, s: string)
    requires AllDigits(s)
    ensures AllDigits(Zeros(n) + s) && NumberOf(Zeros(n) + s) == NumberOf(s)
  {
    var t := Zeros(n) + s;
    if s != "" {
      LeadingZeros(n, s[..|s| - 1]);
      assert t[..|t| - 1] == Zeros(n) + s[..|s| - 1];
    } else if n > 0 {
      LeadingZeros(n - 1, s);
      assert t[..|t| - 1] == Zeros(n - 1) + s;
    }
  }

  lemma LastDigit(s: string)
    requires AllDigits(s) && s != ""
    ensures var head, last := s[..|s| - 1], s[|s| - 1];
            && s == head + [last] && NumberOf(s) / 10 == NumberOf(head) && '0' + (NumberOf(s) % 10) as char == last
            && Digits(NumberOf(s)) == if NumberOf(s) < 10 then [last] else Digits(NumberOf(head)) + [last]
  {
    assert NumberOf(s) % 10 == (s[|s| - 1] - '0') as int;
  }

  /** A digit string is its value's decimal digits behind leading zeros, and none if it starts with another digit. */
  lemma {:induction false} DigitsAreUnique(s: string)
    requires AllDigits(s) && s != ""
    ensures PadStart(Digits(NumberOf(s)), |s|) == s
    ensures |Digits(NumberOf(s))| <= |s|
    ensures s[0] != '0' ==> Digits(NumberOf(s)) == s
  {
    var n, head, last := NumberOf(s), s[..|s| - 1], s[|s| - 1];
    LastDigit(s);
    assert Digits(0) == "0" && NumberOf("") == 0;
    hide Digits, NumberOf;
    if |s| == 1 {
      assert head == "";
    } else {
      DigitsAreUnique(head);
      if n >= 10 {
        assert PadStart(Digits(n), |s|) == PadStart(Digits(n / 10), |head|) + [last];
      } else {
        assert PadStart("0", |head|) == head;
        assert head == Zeros(|head|);
        assert PadStart(Digits(n), |s|) == Zeros(|s| - 1) + [last];
      }
    }
  }

  lemma TrimmedFraction(s: string)
    ensures PadEnd(TrimZeros(s), |s|) == s
  {
  }

  /** The text `whole.fraction` splits back into its parts. */
  lemma Split(whole: string, fraction: string)
    requires AllDigits(whole) && AllDigits(fraction)
    ensures DotAt(whole) == |whole| && WholeOf(whole) == whole && FractionOf(whole) == ""
    ensures var s := whole + "." + fraction; DotAt(s) == |whole| && WholeOf(s) == whole && FractionOf(s) == fraction
  {
    hide DotAt;
    var s := whole + "." + fraction;
    assert s[|whole|] == '.';
    assert forall k :: 0 <= k < |whole| ==> s[k] != '.';
    assert FractionOf(s) == fraction;
  }

  // --- round trips ---------------------------------------------------------------------------------

  /** Whole part without padding zeros, fraction without trailing ones, no sign, no spaces. */
  predicate IsCanonical(s: string) {
    var whole, fraction := WholeOf(s), FractionOf(s);
    && AllDigits(whole) && AllDigits(fraction)
    && whole != "" && (|whole| > 1 ==> whole[0] != '0')
    && (DotAt(s) < |s| ==> fraction != "" && fraction[|fraction| - 1] != '0')
  }

  lemma TrimNothing(s: string)
    requires s != "" && !IsSpace(s[0]) && !IsSpace(s[|s| - 1])
    ensures Trim(s) == s
  {
  }

  lemma Assembled(whole: string, fraction: string)
    requires AllDigits(whole) && AllDigits(fraction) && whole != "" && (|whole| > 1 ==> whole[0] != '0')
    requires fraction != "" ==> fraction[|fraction| - 1] != '0'
    ensures var s := Joined(whole, fraction);
            IsCanonical(s) && Trim(s) == s && s != "" && s != "." && WholeOf(s) == whole && FractionOf(s) == fraction
  {
    Split(whole, fraction);
    hide DotAt, WholeOf, FractionOf;
    var s := Joined(whole, fraction);
    assert IsDigit(s[0]) && IsDigit(s[|s| - 1]);
    TrimNothing(s);
  }

  lemma FormatUnsigned(n: int, decimals: nat)
    requires n >= 0
    ensures FormatAmount(n, decimals) == Joined(FormatWhole(n, decimals), FormatFraction(n, decimals))
    ensures n > 0 ==> FormatAmount(-n, decimals) == "-" + FormatAmount(n, decimals)
  {
  }

  /** Printing without a sign: the parts of the text, and the number they stand for. */
  lemma FormatParts(base: nat, decimals: nat)
    ensures var s := FormatAmount(base, decimals);
            && IsCanonical(s) && Trim(s) == s && s != "" && s != "."
            && WholeOf(s) != "" && AllDigits(WholeOf(s)) && AllDigits(FractionOf(s)) && |FractionOf(s)| <= decimals
            && AllDigits(WholeOf(s) + PadEnd(FractionOf(s), decimals))
            && NumberOf(WholeOf(s) + PadEnd(FractionOf(s), decimals)) == base
  {
    var whole, fraction := FormatWhole(base, decimals), FormatFraction(base, decimals);
    FormatPartsValue(base, decimals);
    Assembled(whole, fraction);
    FormatUnsigned(base, decimals);
    hide FormatAmount, FormatWhole, FormatFraction, Joined, NumberOf, IsCanonical, WholeOf, FractionOf;
  }

  /** All the digits printed, before the point goes in. */
  lemma PrintedDigits(base: nat, decimals: nat)
    ensures var digits := FormatDigits(base, decimals);
            && AllDigits(digits) && NumberOf(digits) == base
            && (|digits| - decimals > 1 ==> digits[0] != '0')
  {
    hide Digits, NumberOf;
    var plain := Digits(base);
    DigitsValue(base);
    NoLeadingZero(base);
    if |plain| < decimals + 1 {
      LeadingZeros(decimals + 1 - |plain|, plain);
    }
  }

  lemma FormatPartsValue(base: nat, decimals: nat)
    ensures var whole, fraction := FormatWhole(base, decimals), FormatFraction(base, decimals);
            && whole != "" && AllDigits(whole) && AllDigits(fraction) && (|whole| > 1 ==> whole[0] != '0')
            && |fraction| <= decimals && (fraction != "" ==> fraction[|fraction| - 1] != '0')
            && AllDigits(whole + PadEnd(fraction, decimals)) && NumberOf(whole + PadEnd(fraction, decimals)) == base
  {
    hide NumberOf, TrimZeros, FormatDigits, PadEnd;
    PrintedDigits(base, decimals);
    var digits := FormatDigits(base, decimals);
    var whole, tail := FormatWhole(base, decimals), digits[|digits| - decimals..];
    assert whole + tail == digits;
    TrimmedFraction(tail);
    assert tail == "" ==> TrimZeros(tail) == "";
  }

  lemma {:induction false} NoLeadingZero(n: nat)
    ensures |Digits(n)| > 1 ==> Digits(n)[0] != '0'
  {
    if n >= 10 {
      NoLeadingZero(n / 10);
      if n < 100 {
        assert Digits(n / 10) == ['0' + (n / 10 % 10) as char];
      }
    }
  }

  /** Every amount the protocol can carry prints to text that parses back to it; any other does not. */
  lemma ParseAfterFormat(base: int, decimals: nat)
    ensures ParseAmount(FormatAmount(base, decimals), decimals) == if 0 <= base <= U64_MAX then Some(base) else None
  {
    hide FormatAmount, NumberOf, DotAt, PadEnd, TrimZeros;
    if base >= 0 {
      FormatParts(base, decimals);
      hide WholeOf, FractionOf, IsCanonical, Trim;
    } else {
      ParseNegative(-base, decimals);
    }
  }

  lemma ParseNegative(base: int, decimals: nat)
    requires base > 0
    ensures ParseAmount(FormatAmount(-base, decimals), decimals) == None
  {
    hide FormatAmount, NumberOf, FractionOf, DotAt, PadEnd;
    FormatParts(base, decimals);
    FormatUnsigned(base, decimals);
    var s, positive := FormatAmount(-base, decimals), FormatAmount(base, decimals);
    LastIsDigit(positive);
    TrimNothing(s);
    assert s[0] == '-' != '.';
    assert DotAt(s) > 0 && WholeOf(s)[0] == '-';
  }

  lemma LastIsDigit(s: string)
    requires IsCanonical(s)
    ensures s != "" && IsDigit(s[|s| - 1])
  {
  }

  function Pow10(n: nat): nat {
    if n == 0 then 1 else 10 * Pow10(n - 1)
  }

  lemma NumberStep(s: string)
    requires AllDigits(s) && s != ""
    ensures NumberOf(s) == 10 * NumberOf(s[..|s| - 1]) + (s[|s| - 1] - '0') as int
  {
  }

  lemma TenTimes(n: nat, p: nat)
    ensures 10 * (n * p) == n * (10 * p)
  {
  }

  lemma {:induction false} TrailingZeros(s: string, n: nat)
    requires AllDigits(s)
    ensures AllDigits(s + Zeros(n)) && NumberOf(s + Zeros(n)) == NumberOf(s) * Pow10(n)
  {
    var t := s + Zeros(n);
    if n == 0 {
      assert t == s;
    } else {
      TrailingZeros(s, n - 1);
      NumberStep(t);
      hide NumberOf;
      assert t[..|t| - 1] == s + Zeros(n - 1) && t[|t| - 1] == '0';
      TenTimes(NumberOf(s), Pow10(n - 1));
    }
  }

  lemma ShiftDigit(n: nat, p: nat, m: nat, d: nat)
    ensures 10 * (n * p + m) + d == n * (10 * p) + (10 * m + d)
  {
  }

  lemma {:induction false} Concatenation(s: string, t: string)
    requires AllDigits(s) && AllDigits(t)
    ensures AllDigits(s + t) && NumberOf(s + t) == NumberOf(s) * Pow10(|t|) + NumberOf(t)
  {
    if t == "" {
      assert s + t == s;
    } else {
      var u := s + t;
      var head := t[..|t| - 1];
      Concatenation(s, head);
      assert u[..|u| - 1] == s + head;
      NumberStep(u);
      NumberStep(t);
      assert Pow10(|t|) == 10 * Pow10(|head|);
      hide NumberOf, Pow10;
      ShiftDigit(NumberOf(s), Pow10(|head|), NumberOf(head), (t[|t| - 1] - '0') as int);
    }
  }

  /** What the text says, in base units: whole times ten to the decimals, plus the fraction at its own scale. */
  function Meaning(trimmed: string, decimals: nat): int
    requires AllDigits(WholeOf(trimmed)) && AllDigits(FractionOf(trimmed)) && |FractionOf(trimmed)| <= decimals
  {
    NumberOf(WholeOf(trimmed)) * Pow10(decimals)
      + NumberOf(FractionOf(trimmed)) * Pow10(decimals - |FractionOf(trimmed)|)
  }

  /**
    A text is accepted exactly when it is digits with at most one dot, not empty, with no more
    fraction digits than the mint has and a value that fits; and then it is worth exactly what it says.
   */
  lemma ParseIsExact(text: string, decimals: nat)
    ensures var t := Trim(text);
            var wellFormed := AllDigits(WholeOf(t)) && AllDigits(FractionOf(t))
              && (WholeOf(t) != "" || FractionOf(t) != "");
            ParseAmount(text, decimals) ==
            if wellFormed && |FractionOf(t)| <= decimals
              && Meaning(t, decimals) <= U64_MAX then Some(Meaning(t, decimals)) else None
  {
    hide Trim, WholeOf, FractionOf, NumberOf, PadEnd, Pow10;
    var t := Trim(text);
    EmptyParts(t);
    if AllDigits(WholeOf(t)) && AllDigits(FractionOf(t)) && |FractionOf(t)| <= decimals {
      ParsedNumber(WholeOf(t), FractionOf(t), decimals);
    }
  }

  lemma EmptyParts(t: string)
    ensures WholeOf(t) == "" && FractionOf(t) == "" <==> t == "" || t == "."
  {
  }

  lemma ParsedNumber(whole: string, fraction: string, decimals: nat)
    requires AllDigits(whole) && AllDigits(fraction) && |fraction| <= decimals
    ensures var digits := (if whole == "" then "0" else whole) + PadEnd(fraction, decimals);
            && AllDigits(digits)
            && NumberOf(digits) == NumberOf(whole) * Pow10(decimals) + NumberOf(fraction) * Pow10(decimals - |fraction|)
  {
    hide Pow10, NumberOf;
    var padded := PadEnd(fraction, decimals);
    assert padded == fraction + Zeros(decimals - |fraction|);
    TrailingZeros(fraction, decimals - |fraction|);
    Concatenation(whole, padded);
    if whole == "" {
      LeadingZeros(1, padded);
      assert "0" + padded == Zeros(1) + padded && whole + padded == padded;
    }
  }

  /**
    Printing what was parsed gives canonical text that parses to the same value, and gives the very
    same text exactly when that was canonical already.
   */
  lemma FormatAfterParse(text: string, decimals: nat)
    requires ParseAmount(text, decimals).Some?
    ensures var base := ParseAmount(text, decimals).value;
            && 0 <= base <= U64_MAX
            && IsCanonical(FormatAmount(base, decimals))
            && ParseAmount(FormatAmount(base, decimals), decimals) == Some(base)
            && (FormatAmount(base, decimals) == text <==> IsCanonical(text))
  {
    var base := ParseAmount(text, decimals).value;
    assert base >= 0;
    FormatParts(base, decimals);
    ParseAfterFormat(base, decimals);
    if IsCanonical(text) {
      CanonicalIsPrinted(text, decimals);
    }
    hide ParseAmount, FormatAmount, IsCanonical;
  }

  lemma CanonicalTrims(text: string)
    requires IsCanonical(text)
    ensures Trim(text) == text && text != "" && text != "."
  {
    LastIsDigit(text);
    assert text[0] == WholeOf(text)[0];
    TrimNothing(text);
  }

  lemma CanonicalValue(text: string, decimals: nat)
    requires IsCanonical(text) && ParseAmount(text, decimals).Some?
    ensures |FractionOf(text)| <= decimals
    ensures AllDigits(PadEnd(FractionOf(text), decimals))
    ensures ParseAmount(text, decimals) == Some(NumberOf(WholeOf(text) + PadEnd(FractionOf(text), decimals)))
  {
    CanonicalTrims(text);
    hide NumberOf, DotAt, Trim, WholeOf, FractionOf;
  }

  /** The digits of a canonical text are the ones its value prints. */
  lemma CanonicalDigits(whole: string, fraction: string, decimals: nat)
    requires AllDigits(whole) && whole != "" && (|whole| > 1 ==> whole[0] != '0') && |fraction| <= decimals
    requires AllDigits(whole + PadEnd(fraction, decimals))
    ensures var digits := whole + PadEnd(fraction, decimals); FormatDigits(NumberOf(digits), decimals) == digits
  {
    hide Digits, NumberOf, PadEnd;
    DigitsAreUnique(whole + PadEnd(fraction, decimals));
  }

  lemma CanonicalIsPrinted(text: string, decimals: nat)
    requires IsCanonical(text) && ParseAmount(text, decimals).Some?
    ensures FormatAmount(ParseAmount(text, decimals).value, decimals) == text
  {
    CanonicalValue(text, decimals);
    Rejoin(text);
    var base := ParseAmount(text, decimals).value;
    var whole, fraction := WholeOf(text), FractionOf(text);
    TrimPadded(fraction, decimals);
    hide ParseAmount, NumberOf, DotAt, Digits, TrimZeros, WholeOf, FractionOf, PadEnd, FormatDigits, FormatAmount;
    var digits := whole + PadEnd(fraction, decimals);
    CanonicalDigits(whole, fraction, decimals);
    assert FormatWhole(base, decimals) == whole;
    assert digits[|digits| - decimals..] == PadEnd(fraction, decimals);
    FormatUnsigned(base, decimals);
  }

  lemma Rejoin(text: string)
    requires IsCanonical(text)
    ensures text == Joined(WholeOf(text), FractionOf(text))
  {
  }

  lemma {:induction false} TrimPadded(fraction: string, n: nat)
    requires |fraction| <= n && (fraction != "" ==> fraction[|fraction| - 1] != '0')
    ensures TrimZeros(PadEnd(fraction, n)) == fraction
    decreases n
  {
    var padded := PadEnd(fraction, n);
    if n > |fraction| {
      TrimPadded(fraction, n - 1);
      assert padded[..|padded| - 1] == PadEnd(fraction, n - 1);
    } else {
      assert padded == fraction;
    }
  }
}
