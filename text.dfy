/** The string operations the pages apply to user input and stored values. Lower-casing is
    ASCII-only and `parseInt` is read as base 10 without leading white space. */
module Text {
  import opened Js

  /** ASCII `toLowerCase` of one character. */
  function LowerChar(c: char): (d: char)
    ensures !('A' <= d <= 'Z')
  {
    if 'A' <= c <= 'Z' then (c as int + 32) as char else c
  }

  /** ASCII `toLowerCase` of a string, character by character. */
  function Lower(s: string): (r: string)
    ensures |r| == |s|
    ensures forall i :: 0 <= i < |s| ==> r[i] == LowerChar(s[i])
  {
    seq(|s|, i requires 0 <= i < |s| => LowerChar(s[i]))
  }

  /** `sub` occurs in `s` starting at index `i`. */
  ghost predicate OccursAt(s: string, sub: string, i: int)
  {
    0 <= i && i + |sub| <= |s| && s[i..i + |sub|] == sub
  }

  /** `s.includes(sub)`, scanning the start positions from the left. */
  function Includes(s: string, sub: string): bool
    decreases |s|
  {
    if |s| < |sub| then false
    else if s[..|sub|] == sub then true
    else Includes(s[1..], sub)
  }

  /** `includes` answers exactly whether `sub` occurs somewhere in `s`. */
  lemma {:induction false} IncludesIff(s: string, sub: string)
    ensures Includes(s, sub) <==> exists i :: OccursAt(s, sub, i)
    decreases |s|
  {
    if |s| < |sub| {
    } else if s[..|sub|] == sub {
      assert OccursAt(s, sub, 0);
    } else {
      IncludesIff(s[1..], sub);
      if Includes(s[1..], sub) {
        var i :| OccursAt(s[1..], sub, i);
        assert s[1..][i..i + |sub|] == s[i + 1..i + 1 + |sub|];
        assert OccursAt(s, sub, i + 1);
      }
      if exists i :: OccursAt(s, sub, i) {
        var i :| OccursAt(s, sub, i);
        assert i != 0;
        assert s[1..][i - 1..i - 1 + |sub|] == s[i..i + |sub|];
        assert OccursAt(s[1..], sub, i - 1);
      }
    }
  }

  /** `term` occurs in `s` when both are lower-cased. */
  ghost predicate ContainsIgnoringCase(s: string, term: string)
  {
    exists i :: OccursAt(Lower(s), Lower(term), i)
  }

  /** `s.toLowerCase().includes(term.toLowerCase())`, the test every search box applies. */
  function IncludesIgnoringCase(s: string, term: string): (r: bool)
    ensures r <==> ContainsIgnoringCase(s, term)
    ensures term == "" ==> r
  {
    IncludesIff(Lower(s), Lower(term));
    assert term == "" ==> OccursAt(Lower(s), Lower(term), 0);
    Includes(Lower(s), Lower(term))
  }

  /** A term with a letter the text lacks, once both are lower-cased, is not found in it. */
  lemma MissingLetterNotContained(s: string, term: string, c: char)
    requires c in Lower(term) && c !in Lower(s)
    ensures !ContainsIgnoringCase(s, term)
  {
  }

  predicate IsDigit(c: char)
  {
    '0' <= c <= '9'
  }

  predicate AllDigits(s: string)
  {
    forall i :: 0 <= i < |s| ==> IsDigit(s[i])
  }

  /** The longest prefix of `s` made of decimal digits. */
  function LeadingDigits(s: string): (r: string)
    ensures |r| <= |s| && r == s[..|r|]
    ensures AllDigits(r)
    ensures |r| == |s| || !IsDigit(s[|r|])
    decreases |s|
  {
    if s != [] && IsDigit(s[0]) then [s[0]] + LeadingDigits(s[1..]) else []
  }

  /** The value of a string of decimal digits, most significant digit first. */
  function DigitsValue(ds: string): nat
    requires AllDigits(ds)
    decreases |ds|
  {
    if ds == [] then 0
    else 10 * DigitsValue(ds[..|ds| - 1]) + (ds[|ds| - 1] as int - '0' as int)
  }

  /** `String(n)`: the decimal rendering of a natural number, as an input field shows it. */
  function Show(n: nat): (r: string)
    ensures |r| > 0 && AllDigits(r)
  {
    if n < 10 then [('0' as int + n) as char]
    else Show(n / 10) + [('0' as int + n % 10) as char]
  }

  /** `parseInt(s, 10)`: an optional sign followed by the leading decimal digits; `None`
      stands for `NaN`, which is what `parseInt` gives when no digit follows the sign. */
  function ParseInt(s: string): (r: Option<int>)
    // A number is read exactly when a digit comes first, or a sign and then a digit ...
    ensures r.Some? <==>
      (s != [] && IsDigit(s[0])) || (|s| >= 2 && (s[0] == '-' || s[0] == '+') && IsDigit(s[1]))
    // ... and it is negative only after a minus sign.
    ensures r.Some? && r.value < 0 ==> s[0] == '-'
  {
    var signed := s != [] && (s[0] == '-' || s[0] == '+');
    var digits := LeadingDigits(if signed then s[1..] else s);
    if digits == [] then None
    else if signed && s[0] == '-' then Some(-(DigitsValue(digits) as int))
    else Some(DigitsValue(digits))
  }

  /** `parseInt(s) || 0`: `NaN` (and 0) become 0. */
  function ParseIntOrZero(s: string): (n: int)
    ensures ParseInt(s).None? ==> n == 0
    ensures ParseInt(s).Some? ==> n == ParseInt(s).value
    ensures n != 0 ==> ParseInt(s) == Some(n)
  {
    match ParseInt(s)
    case None => 0
    case Some(n) => n
  }

  /** Reading the decimal rendering back gives the number. */
  lemma {:induction false} ValueOfShow(n: nat)
    ensures DigitsValue(Show(n)) == n
  {
    if n >= 10 {
      ValueOfShow(n / 10);
      var s := Show(n);
      assert s[..|s| - 1] == Show(n / 10);
    }
  }

  /** The leading digits of a digit string followed by a non-digit are that digit string. */
  lemma LeadingDigitsOfNumber(ds: string, tail: string)
    requires AllDigits(ds)
    requires tail == [] || !IsDigit(tail[0])
    ensures LeadingDigits(ds + tail) == ds
  {
    var s := ds + tail;
    assert s[..|ds|] == ds;
  }

  /** `parseInt(String(n) + tail)` is `n` when `tail` does not continue the digits. */
  lemma ParseShown(n: nat, tail: string)
    requires tail == [] || !IsDigit(tail[0])
    ensures ParseInt(Show(n) + tail) == Some(n)
  {
    var ds := Show(n);
    ValueOfShow(n);
    LeadingDigitsOfNumber(ds, tail);
    assert (ds + tail)[0] == ds[0];
  }

  /** `parseInt(String(n) + tail) || 0` is `n`, with or without a leading minus sign, when
      `tail` does not continue the digits (so "12", "12.5" and "12abc" all read as 12). */
  lemma ParseShownNumber(n: nat, tail: string)
    requires tail == [] || !IsDigit(tail[0])
    ensures ParseIntOrZero(Show(n) + tail) == n
    ensures ParseIntOrZero("-" + (Show(n) + tail)) == -(n as int)
  {
    ParseShown(n, tail);
    ParseNegated(Show(n) + tail);
  }

  /** A minus sign in front of text that starts with a digit negates the number read. */
  lemma ParseNegated(s: string)
    requires s != [] && IsDigit(s[0])
    ensures ParseInt(s).Some? && ParseInt("-" + s) == Some(-ParseInt(s).value)
  {
    var neg := "-" + s;
    assert neg[0] == '-' && neg[1..] == s;
  }

  /** `s.split('.')[0]`: the part of `s` before its first '.', or all of `s` if it has none. */
  function BeforeFirstDot(s: string): (r: string)
    ensures |r| <= |s| && r == s[..|r|]
    ensures '.' !in r
    ensures |r| == |s| || s[|r|] == '.'
    decreases |s|
  {
    if s == [] || s[0] == '.' then [] else [s[0]] + BeforeFirstDot(s[1..])
  }
}
