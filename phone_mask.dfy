/** The phone branch of the checkout form's change handler: keep the digits,
    force the Brazilian country code "55", keep at most 13 digits and render
    them as `+55 (DD) NNNNN-NNNN`, revealing each group as digits arrive. */
module PhoneMask {

  predicate IsDigit(c: char) { '0' <= c <= '9' }

  predicate AllDigits(s: string) { forall i :: 0 <= i < |s| ==> IsDigit(s[i]) }

  predicate StartsWith(s: string, prefix: string) {
    |prefix| <= |s| && s[..|prefix|] == prefix
  }

  function Min(a: int, b: int): int { if a <= b then a else b }

  /** JavaScript's `String.prototype.substring` for non-negative indices:
      both ends are clamped to the length and swapped when out of order. */
  function Substring(s: string, start: nat, end: nat): (r: string)
    // within range it is the slice between the two indices
    ensures start <= end <= |s| ==> r == s[start..end]
    // the order of the two indices does not matter
    ensures end <= start <= |s| ==> r == s[end..start]
    // an index past the end is clamped to the length
    ensures start <= |s| <= end ==> r == s[start..]
    ensures end <= |s| <= start ==> r == s[end..]
    // past the end nothing is taken
    ensures |s| <= start && |s| <= end ==> r == []
    ensures |r| <= |s|
  {
    var lo := Min(Min(start, end), |s|);
    var hi := Min(if start <= end then end else start, |s|);
    s[lo..hi]
  }

  const CountryCode: string := "55"

  /** Country code (2) + area code (2) + subscriber number (9). */
  const MaxDigits: nat := 13

  /** `value.replace(/\D/g, "")`: the digits of `s`, in order. */
  function Digits(s: string): (r: string)
    ensures AllDigits(r) && |r| <= |s|
    ensures AllDigits(s) ==> r == s
  {
    if s == [] then []
    else (if IsDigit(s[0]) then [s[0]] else []) + Digits(s[1..])
  }

  /** Every digit of the input is kept, as often as it occurs, and nothing
      else is. */
  lemma {:induction false} DigitsKeepsDigits(s: string)
    ensures forall c :: multiset(Digits(s))[c] == if IsDigit(c) then multiset(s)[c] else 0
  {
    if s != [] {
      DigitsKeepsDigits(s[1..]);
      assert s == [s[0]] + s[1..];
      assert multiset(s) == multiset([s[0]]) + multiset(s[1..]);
    }
  }

  /** Digit extraction distributes over concatenation. */
  lemma {:induction false} DigitsAppend(a: string, b: string)
    ensures Digits(a + b) == Digits(a) + Digits(b)
  {
    if a == [] {
      assert a + b == b;
    } else {
      assert (a + b)[0] == a[0];
      assert (a + b)[1..] == a[1..] + b;
      DigitsAppend(a[1..], b);
    }
  }

  /** Steps 2-4 of the phone branch: reset an empty or "5" digit string to
      the country code, prefix the country code when it is missing, and keep
      at most `MaxDigits` digits. */
  function NormalizeDigits(digits: string): (r: string)
    ensures StartsWith(r, CountryCode) && |r| <= MaxDigits
    ensures AllDigits(digits) ==> AllDigits(r)
    // digits that already carry the country code are only truncated
    ensures StartsWith(digits, CountryCode) ==> r == digits[..Min(|digits|, MaxDigits)]
    // a lone "5" is reset to the country code
    ensures digits == "5" ==> r == CountryCode
    // otherwise the typed digits follow the forced country code
    ensures !StartsWith(digits, CountryCode) && digits != "5" ==>
              r == (CountryCode + digits)[..Min(|digits| + 2, MaxDigits)]
  {
    var reset := if digits == "" || digits == "5" then CountryCode else digits;
    var prefixed := if StartsWith(reset, CountryCode) then reset else CountryCode + reset;
    Substring(prefixed, 0, MaxDigits)
  }

  /** Step 5: the incremental rendering `+CC (AA) NNNNN-NNNN`. */
  function Render(d: string): (r: string)
    ensures StartsWith(r, "+" + Substring(d, 0, 2))
  {
    "+" + Substring(d, 0, 2)
    + (if |d| > 2 then " (" + Substring(d, 2, 4) else "")
    + (if |d| > 4 then ") " + Substring(d, 4, 9) else "")
    + (if |d| > 9 then "-" + Substring(d, 9, 13) else "")
  }

  /** The value the phone field holds after a change event carrying `value`:
      it starts with `+55` and shows the normalized digits of the input. */
  function MaskPhone(value: string): (r: string)
    ensures StartsWith(r, "+55")
    ensures Digits(r) == NormalizeDigits(Digits(value))
  {
    var d := NormalizeDigits(Digits(value));
    RenderDigits(d);
    assert d[..Min(|d|, MaxDigits)] == d;
    assert Substring(d, 0, 2) == "55";
    Render(d)
  }

  /** A phone value that the mask leaves as it is. */
  predicate IsMasked(phone: string) { MaskPhone(phone) == phone }

  lemma SubstringDigits(d: string, start: nat, end: nat)
    requires AllDigits(d)
    ensures AllDigits(Substring(d, start, end))
    ensures Digits(Substring(d, start, end)) == Substring(d, start, end)
  {
  }

  /** A separator followed by a group of digits shows just that group. */
  lemma SeparatedGroupDigits(sep: string, d: string, start: nat, end: nat)
    requires Digits(sep) == []
    requires AllDigits(d)
    ensures Digits(sep + Substring(d, start, end)) == Substring(d, start, end)
  {
    DigitsAppend(sep, Substring(d, start, end));
    SubstringDigits(d, start, end);
  }

  /** The four groups of the rendering put back together. */
  lemma GroupsJoin(d: string)
    ensures var n := |d|;
      Substring(d, 0, 2)
      + (if n > 2 then Substring(d, 2, 4) else "")
      + (if n > 4 then Substring(d, 4, 9) else "")
      + (if n > 9 then Substring(d, 9, 13) else "")
      == d[..Min(n, MaxDigits)]
  {
  }

  /** The digits shown by the rendering are exactly the first 13 digits. */
  lemma RenderDigits(d: string)
    requires AllDigits(d)
    ensures Digits(Render(d)) == d[..Min(|d|, MaxDigits)]
  {
    var n := |d|;
    var p0 := "+" + Substring(d, 0, 2);
    var p1 := if n > 2 then " (" + Substring(d, 2, 4) else "";
    var p2 := if n > 4 then ") " + Substring(d, 4, 9) else "";
    var p3 := if n > 9 then "-" + Substring(d, 9, 13) else "";
    assert Render(d) == p0 + p1 + p2 + p3;
    DigitsAppend(p0 + p1 + p2, p3);
    DigitsAppend(p0 + p1, p2);
    DigitsAppend(p0, p1);
    SeparatedGroupDigits("+", d, 0, 2);
    if n > 2 { SeparatedGroupDigits(" (", d, 2, 4); }
    if n > 4 { SeparatedGroupDigits(") ", d, 4, 9); }
    if n > 9 { SeparatedGroupDigits("-", d, 9, 13); }
    GroupsJoin(d);
  }

  /** The masked phone always begins with `+55` and shows at most 13 digits. */
  lemma MaskPrefixAndBound(value: string)
    ensures StartsWith(MaskPhone(value), "+55")
    ensures |Digits(MaskPhone(value))| <= MaxDigits
  {
    var d := NormalizeDigits(Digits(value));
    assert Substring(d, 0, 2) == "55";
    assert MaskPhone(value)[..3] == "+" + Substring(d, 0, 2);
  }

  /** Clearing the field, or leaving only one "5", shows exactly `+55`. */
  lemma MaskResetsToCountryCode(value: string)
    requires Digits(value) == "" || Digits(value) == "5"
    ensures MaskPhone(value) == "+55"
  {
  }

  /** The initial phone value `+55` is already masked. */
  lemma InitialPhoneIsMasked()
    ensures IsMasked("+55")
  {
  }

  /** The mask's separators appear according to the digit count alone:
      " (" after more than 2 digits, ") " after more than 4, "-" after more than 9. */
  lemma MaskShape(value: string)
    ensures var r := MaskPhone(value); var n := |Digits(r)|;
      r[0] == '+'
      && ('(' in r <==> n > 2)
      && (')' in r <==> n > 4)
      && ('-' in r <==> n > 9)
  {
    var d := NormalizeDigits(Digits(value));
    RenderShape(d);
  }

  /** Digit strings the normalization keeps as they are. */
  lemma NormalizeFixed(d: string)
    requires StartsWith(d, CountryCode) && |d| <= MaxDigits
    ensures NormalizeDigits(d) == d
  {
  }

  /** Shape of the rendering of `n` digits: which separators appear and how
      long the result is depend on `n` alone. */
  lemma RenderShape(d: string)
    requires AllDigits(d) && 2 <= |d| <= MaxDigits
    ensures var r, n := Render(d), |d|;
      r[0] == '+'
      && ('(' in r <==> n > 2)
      && (')' in r <==> n > 4)
      && ('-' in r <==> n > 9)
      && |r| == 1 + n + (if n > 2 then 2 else 0) + (if n > 4 then 2 else 0) + (if n > 9 then 1 else 0)
  {
  }

  /** The rendering grows as digits arrive: the rendering of a prefix of
      the digits is a prefix of the rendering of all of them. */
  lemma {:induction false} RenderExtends(d: string, e: string)
    requires 2 <= |d| <= |e| <= MaxDigits && d == e[..|d|]
    ensures Render(d) <= Render(e)
    decreases |e| - |d|
  {
    if |d| == |e| {
      assert d == e;
    } else {
      var e' := e[..|e| - 1];
      assert e == e' + [e[|e| - 1]];
      assert d == e'[..|d|];
      RenderExtends(d, e');
      RenderStep(e', e[|e| - 1]);
      assert Render(e') <= Render(e);
    }
  }

  /** One more digit only adds to the end of the rendering: the digit,
      preceded by the separator that opens its group when it is the first
      digit of the area code, the number or the last four. */
  lemma RenderStep(d: string, c: char)
    requires 2 <= |d| < MaxDigits
    ensures Render(d + [c]) == Render(d) + GroupOpening(|d|) + [c]
  {
    var e, n := d + [c], |d|;
    assert e[..2] == d[..2];
    var t: string;
    if n == 2 {
      t := " (" + [c];
    } else if n < 4 {
      assert e[2..n + 1] == d[2..n] + [c];
      t := [c];
    } else {
      assert e[2..4] == d[2..4];
      if n == 4 {
        t := ") " + [c];
      } else if n < 9 {
        assert e[4..n + 1] == d[4..n] + [c];
        t := [c];
      } else {
        assert e[4..9] == d[4..9];
        if n == 9 {
          t := "-" + [c];
        } else {
          assert e[9..n + 1] == d[9..n] + [c];
          t := [c];
        }
      }
    }
    assert Render(e) == Render(d) + t;
  }

  /** The separator written before the digit at position `n`. */
  function GroupOpening(n: nat): string {
    if n == 2 then " (" else if n == 4 then ") " else if n == 9 then "-" else ""
  }

  /** The full layout `+CC (AA) NNNNN-NNNN` of 13 digits, separator by
      separator and group by group. */
  lemma RenderFullLayout(d: string)
    requires |d| == MaxDigits
    ensures var r := Render(d);
      && |r| == 19
      && r[0] == '+' && r[3..5] == " (" && r[7..9] == ") " && r[14] == '-'
      && r[1..3] == d[..2] && r[5..7] == d[2..4] && r[9..14] == d[4..9] && r[15..] == d[9..]
  {
    var r := Render(d);
    assert r == "+" + d[0..2] + " (" + d[2..4] + ") " + d[4..9] + "-" + d[9..13];
    assert r[7] == ')' && r[8] == ' ';
  }

  /** Masking is idempotent: the mask of a masked value is that value. */
  lemma MaskIdempotent(value: string)
    ensures IsMasked(MaskPhone(value))
  {
    var d := NormalizeDigits(Digits(value));
    NormalizeFixed(d);
  }

  /** The digits of a masked phone already carry the country code and fit
      the bound, and the phone is their rendering. */
  lemma MaskedPhoneDigits(phone: string)
    requires IsMasked(phone)
    ensures StartsWith(Digits(phone), CountryCode) && |Digits(phone)| <= MaxDigits
    ensures phone == Render(Digits(phone))
  {
    NormalizeFixed(Digits(phone));
  }

  /** The digits after typing `c` at the end of a masked phone. */
  lemma TypedDigits(phone: string, c: char)
    requires IsMasked(phone) && IsDigit(c)
    ensures Digits(phone + [c]) == Digits(phone) + [c]
    ensures StartsWith(Digits(phone) + [c], CountryCode)
    ensures |Digits(phone)| <= MaxDigits && phone == Render(Digits(phone))
  {
    MaskedPhoneDigits(phone);
    DigitsAppend(phone, [c]);
    assert Digits([c]) == [c];
    var d := Digits(phone);
    assert (d + [c])[..2] == d[..2];
  }

  /** Typing one more digit at the end of a masked phone with fewer than 13
      digits adds exactly that digit; once 13 digits are shown, further
      digits are dropped and the value stays as it is. */
  lemma MaskTypingDigit(phone: string, c: char)
    requires IsMasked(phone) && IsDigit(c)
    ensures |Digits(phone)| < MaxDigits ==> Digits(MaskPhone(phone + [c])) == Digits(phone) + [c]
    ensures |Digits(phone)| == MaxDigits ==> MaskPhone(phone + [c]) == phone
  {
    TypedDigits(phone, c);
    var d := Digits(phone);
    var e := d + [c];
    if |d| == MaxDigits {
      assert e[..MaxDigits] == d;
      assert NormalizeDigits(e) == d;
    } else {
      assert e[..|e|] == e;
    }
  }


}
