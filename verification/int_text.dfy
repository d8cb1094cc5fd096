/** Swift's conversions between `Int` and its decimal text, as the version
    parser and formatter use them: `Int(_: String)` (optional sign, then one or
    more digits; anything else is `nil`) and string interpolation `"\(n)"`
    (shortest decimal form, `-` in front of a negative value). */
module IntText {
  import opened Wrappers
  import opened StringOps

  function DigitValue(c: char): (d: nat)
    requires IsDigit(c)
    ensures d < 10
  {
    (c as int) - ('0' as int)
  }

  function DigitChar(d: nat): (c: char)
    requires d < 10
    ensures IsDigit(c) && DigitValue(c) == d
  {
    ('0' as int + d) as char
  }

  /** The value of a string of decimal digits, most significant first; leading zeros allowed. */
  function DigitsValue(s: string): nat
    requires AllDigits(s)
  {
    if s == [] then 0 else DigitsValue(s[..|s| - 1]) * 10 + DigitValue(s[|s| - 1])
  }

  /** Appending a digit multiplies the value by ten and adds the digit. */
  lemma {:induction false} DigitsValueAppend(s: string, c: char)
    requires AllDigits(s) && IsDigit(c)
    ensures AllDigits(s + [c]) && DigitsValue(s + [c]) == DigitsValue(s) * 10 + DigitValue(c)
  {
    assert (s + [c])[..|s|] == s;
  }

  /** The shortest decimal text: no leading zero unless the value itself is zero. */
  predicate Canonical(s: string) {
    |s| >= 1 && AllDigits(s) && (s[0] == '0' ==> |s| == 1)
  }

  /** `"\(n)"` for a non-negative `n`. */
  function NatDescription(n: nat): (s: string)
    ensures Canonical(s)
  {
    if n < 10 then [DigitChar(n)] else NatDescription(n / 10) + [DigitChar(n % 10)]
  }

  /** `"\(i)"` for any `Int`. */
  function Description(i: int): (s: string)
    ensures |s| >= 1 && '.' !in s && '_' !in s
    ensures i >= 0 <==> Canonical(s)
  {
    if i < 0 then "-" + NatDescription(-i) else NatDescription(i)
  }

  /** `Int(s)`: an optional `+` or `-`, then at least one digit, and nothing else. */
  function ParseInt(s: string): (r: Option<int>)
    ensures r.Some? <==> (|s| >= 1 && AllDigits(s)) ||
                         (|s| >= 2 && (s[0] == '+' || s[0] == '-') && AllDigits(s[1..]))
    ensures r.Some? && s[0] != '-' ==> r.value >= 0
  {
    if |s| == 0 then None
    else if s[0] == '+' || s[0] == '-' then
      if |s| >= 2 && AllDigits(s[1..]) then
        var magnitude: int := DigitsValue(s[1..]);
        Some(if s[0] == '-' then -magnitude else magnitude)
      else None
    else if AllDigits(s) then Some(DigitsValue(s))
    else None
  }

  /** Reading back the description of a natural number gives the number. */
  lemma {:induction false} ValueOfDescription(n: nat)
    ensures DigitsValue(NatDescription(n)) == n
  {
    if n >= 10 {
      var s := NatDescription(n);
      var prefix := NatDescription(n / 10);
      assert s[..|s| - 1] == prefix;
      ValueOfDescription(n / 10);
    }
  }

  /** The description of the value of canonical digit text is that text. */
  lemma {:induction false} DescriptionOfValue(s: string)
    requires Canonical(s)
    ensures NatDescription(DigitsValue(s)) == s
  {
    if |s| > 1 {
      var prefix := s[..|s| - 1];
      assert Canonical(prefix);
      LeadingDigitPositive(prefix);
      DescriptionOfValue(prefix);
      var n := DigitsValue(s);
      assert n / 10 == DigitsValue(prefix) && n % 10 == DigitValue(s[|s| - 1]);
      assert s == prefix + [s[|s| - 1]];
    }
  }

  /** Digit text whose first digit is not zero has a positive value. */
  lemma {:induction false} LeadingDigitPositive(s: string)
    requires |s| >= 1 && AllDigits(s) && s[0] != '0'
    ensures DigitsValue(s) >= 1
  {
    if |s| > 1 {
      LeadingDigitPositive(s[..|s| - 1]);
    }
  }

  /** Digit text is read as its value. */
  lemma {:induction false} ParseDigits(s: string)
    requires |s| >= 1 && AllDigits(s)
    ensures ParseInt(s) == Some(DigitsValue(s))
  {
  }

  /** Digit text behind a minus sign is read as the negated value. */
  lemma {:induction false} ParseNegated(m: string)
    requires |m| >= 1 && AllDigits(m)
    ensures ParseInt("-" + m) == Some(-(DigitsValue(m) as int))
  {
    assert ("-" + m)[0] == '-' && ("-" + m)[1..] == m;
  }

  /** `Int("\(i)") == i` for every integer. */
  lemma {:induction false} ParseDescription(i: int)
    ensures ParseInt(Description(i)) == Some(i)
  {
    if i < 0 {
      var m := NatDescription(-i);
      ParseNegated(m);
      ValueOfDescription(-i);
    } else {
      ParseDigits(NatDescription(i));
      ValueOfDescription(i);
    }
  }
}
