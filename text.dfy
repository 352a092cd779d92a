/** The two string operations the forms rely on: Foundation's
    `trimmingCharacters(in: .whitespacesAndNewlines)` and Swift's failable
    `Int(_: String)` initializer (with `String(Int)` as its inverse). Strings are
    sequences of Unicode scalars. */
module Text {
  import opened Basics

  /** Membership in `CharacterSet.whitespacesAndNewlines`: Unicode general
      category Z (space, line and paragraph separators), tab, U+000A..U+000D and
      U+0085. */
  const Whitespace: set<char> :=
    {'\t', '\n', '\U{000B}', '\U{000C}', '\r', ' ', '\U{0085}', '\U{00A0}', '\U{1680}',
     '\U{2000}', '\U{2001}', '\U{2002}', '\U{2003}', '\U{2004}', '\U{2005}', '\U{2006}',
     '\U{2007}', '\U{2008}', '\U{2009}', '\U{200A}',
     '\U{2028}', '\U{2029}', '\U{202F}', '\U{205F}', '\U{3000}'}

  predicate IsWhitespace(c: char) {
    c in Whitespace
  }

  /** `s` with its leading whitespace removed. */
  function DropLeading(s: string): (r: string)
    ensures |r| <= |s| && r == s[|s| - |r|..]
    ensures r == [] || !IsWhitespace(r[0])
    ensures forall i :: 0 <= i < |s| - |r| ==> IsWhitespace(s[i])
  {
    if s != [] && IsWhitespace(s[0]) then DropLeading(s[1..]) else s
  }

  /** `s` with its trailing whitespace removed. */
  function DropTrailing(s: string): (r: string)
    ensures |r| <= |s| && r == s[..|r|]
    ensures r == [] || !IsWhitespace(r[|r| - 1])
    ensures forall i :: |r| <= i < |s| ==> IsWhitespace(s[i])
  {
    if s != [] && IsWhitespace(s[|s| - 1]) then DropTrailing(s[..|s| - 1]) else s
  }

  /** `s.trimmingCharacters(in: .whitespacesAndNewlines)`: `s` without its
      leading and trailing whitespace. */
  function Trim(s: string): (r: string)
    ensures r == [] || (!IsWhitespace(r[0]) && !IsWhitespace(r[|r| - 1]))
  {
    DropTrailing(DropLeading(s))
  }

  /** The trimmed string is the slice of `s` that starts after its leading whitespace. */
  lemma TrimIsSlice(s: string)
    ensures |s| - |DropLeading(s)| + |Trim(s)| <= |s|
    ensures Trim(s) == s[|s| - |DropLeading(s)| .. |s| - |DropLeading(s)| + |Trim(s)|]
  {
    var lead := DropLeading(s);
    var start := |s| - |lead|;
    var r := DropTrailing(lead);
    assert lead == s[start..];
    assert r == lead[..|r|];
    assert s[start..][..|r|] == s[start .. start + |r|];
  }

  /** Everything outside the trimmed slice is whitespace. */
  lemma TrimmedAway(s: string)
    ensures forall i :: 0 <= i < |s| - |DropLeading(s)| ==> IsWhitespace(s[i])
    ensures forall i :: |s| - |DropLeading(s)| + |Trim(s)| <= i < |s| ==> IsWhitespace(s[i])
  {
    var lead := DropLeading(s);
    var start := |s| - |lead|;
    var r := DropTrailing(lead);
    assert Trim(s) == r;
    forall i | start + |r| <= i < |s| ensures IsWhitespace(s[i]) {
      var j := i - start;
      assert s[i] == lead[j];
      assert IsWhitespace(lead[j]);
    }
  }

  /** Trimming yields the empty string exactly when every character is whitespace. */
  lemma TrimEmptyIff(s: string)
    ensures Trim(s) == [] <==> forall i :: 0 <= i < |s| ==> IsWhitespace(s[i])
  {
    TrimIsSlice(s);
    TrimmedAway(s);
    if Trim(s) != [] {
      var start := |s| - |DropLeading(s)|;
      assert s[start] == Trim(s)[0];
    }
  }

  /** A string without whitespace at either end is its own trimming. */
  lemma {:induction false} TrimOfTrimmed(s: string)
    requires s == [] || (!IsWhitespace(s[0]) && !IsWhitespace(s[|s| - 1]))
    ensures Trim(s) == s
  {
  }

  /** Trimming is idempotent. */
  lemma TrimIdempotent(s: string)
    ensures Trim(Trim(s)) == Trim(s)
  {
    TrimOfTrimmed(Trim(s));
  }

  /** Largest and smallest values of Swift's 64-bit `Int`. */
  const IntMax: int := 0x7FFF_FFFF_FFFF_FFFF
  const IntMin: int := -0x8000_0000_0000_0000

  predicate IsDigit(c: char) {
    '0' <= c <= '9'
  }

  predicate AllDigits(s: string) {
    forall i :: 0 <= i < |s| ==> IsDigit(s[i])
  }

  /** The value of a string of decimal digits, most significant first. */
  function DigitsValue(s: string): nat
    requires AllDigits(s)
  {
    if s == [] then 0
    else DigitsValue(s[..|s| - 1]) * 10 + (s[|s| - 1] as int - '0' as int)
  }

  /** An optional `+` or `-` followed by the digits, if there is at least one digit
      and nothing else. */
  function SignedMagnitude(s: string): Option<int> {
    if s != [] && (s[0] == '+' || s[0] == '-') then
      var digits := s[1..];
      if digits != [] && AllDigits(digits) then
        var magnitude: int := DigitsValue(digits);
        Some(if s[0] == '-' then -magnitude else magnitude)
      else None
    else if s != [] && AllDigits(s) then Some(DigitsValue(s))
    else None
  }

  /** `Int(s)`: a decimal integer with an optional sign, no surrounding
      whitespace, and nil when the value does not fit in 64 bits. */
  function ParseInt(s: string): (r: Option<int>)
    ensures r.Some? ==> IntMin <= r.value <= IntMax
    ensures s == [] ==> r == None
    ensures r.Some? ==> forall i :: 0 <= i < |s| ==> !IsWhitespace(s[i])
  {
    var v := SignedMagnitude(s);
    assert v.Some? && s != [] && s[0] != '+' && s[0] != '-' ==> AllDigits(s);
    if v.Some? && IntMin <= v.value <= IntMax then v else None
  }

  /** Exactly the strings made of one optional `+` or `-` followed by at least
      one ASCII digit parse, to the value those digits denote, negated after `-`,
      whenever that value fits in 64 bits. */
  lemma ParseIntAccepts(s: string)
    ensures ParseInt(s).Some? ==> s != [] && AllDigits(s[1..]) && (IsDigit(s[0]) || (|s| >= 2 && (s[0] == '+' || s[0] == '-')))
    ensures ParseInt(s).Some? && AllDigits(s) ==> ParseInt(s).value == DigitsValue(s)
    ensures ParseInt(s).Some? && s != [] && s[0] == '+' && AllDigits(s[1..]) ==> ParseInt(s).value == DigitsValue(s[1..])
    ensures ParseInt(s).Some? && s != [] && s[0] == '-' && AllDigits(s[1..]) ==> ParseInt(s).value == -(DigitsValue(s[1..]) as int)
    ensures s != [] && AllDigits(s) && DigitsValue(s) <= IntMax ==> ParseInt(s) == Some(DigitsValue(s))
    ensures |s| >= 2 && s[0] == '+' && AllDigits(s[1..]) && DigitsValue(s[1..]) <= IntMax ==>
              ParseInt(s) == Some(DigitsValue(s[1..]))
    ensures |s| >= 2 && s[0] == '-' && AllDigits(s[1..]) && -(DigitsValue(s[1..]) as int) >= IntMin ==>
              ParseInt(s) == Some(-(DigitsValue(s[1..]) as int))
  {
  }

  /** The decimal digits of `n`, without leading zeros. */
  function DecimalNat(n: nat): (r: string)
    ensures r != [] && AllDigits(r)
  {
    var d := [(('0' as int) + n % 10) as char];
    if n < 10 then d else DecimalNat(n / 10) + d
  }

  /** `String(n)` for an `Int`. */
  function Decimal(n: int): string {
    if n < 0 then "-" + DecimalNat(-n) else DecimalNat(n)
  }

  lemma {:induction false} DecimalNatValue(n: nat)
    ensures DigitsValue(DecimalNat(n)) == n
  {
    var r := DecimalNat(n);
    if n >= 10 {
      DecimalNatValue(n / 10);
      assert r[..|r| - 1] == DecimalNat(n / 10);
    }
  }

  /** `Int(String(n)) == n` for every 64-bit `n`. */
  lemma ParseDecimal(n: int)
    requires IntMin <= n <= IntMax
    ensures ParseInt(Decimal(n)) == Some(n)
  {
    if n < 0 {
      DecimalNatValue(-n);
      assert Decimal(n)[1..] == DecimalNat(-n);
    } else {
      DecimalNatValue(n);
    }
  }

  /** Non-numerals do not parse: letters anywhere, a lone sign, a doubled sign.
      Leading zeros and a sign do. */
  lemma ParseIntExamples()
    ensures ParseInt("abc") == None && ParseInt("12a") == None
    ensures ParseInt("+") == None && ParseInt("--1") == None
    ensures ParseInt("007") == Some(7) && ParseInt("-12") == Some(-12)
  {
    ParseIntAccepts("abc");
    ParseIntAccepts("12a");
    ParseIntAccepts("+");
    ParseIntAccepts("--1");
    ParseIntAccepts("007");
    ParseIntAccepts("-12");
    assert !IsDigit('a') && "abc"[0] == 'a';
    assert "12a"[1..][1] == 'a';
    assert "--1"[1..][0] == '-';
    assert "007"[..2] == "00" && "00"[..1] == "0" && "0"[..0] == [];
    assert "-12"[1..] == "12" && "12"[..1] == "1" && "1"[..0] == [];
  }
}
