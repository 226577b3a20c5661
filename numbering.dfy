/**
 * Part numbers: '1', '2', ... or 'A', 'B', ..., advanced with Ruby's
 * String#succ. Only the two alphabets the cutlist uses are modelled: strings
 * of decimal digits and strings of uppercase letters, where succ carries
 * ('9' to '10', 'Z' to 'AA').
 */
module Numbering {

  predicate IsDigit(c: char) { '0' <= c <= '9' }
  predicate IsUpper(c: char) { 'A' <= c <= 'Z' }

  predicate AllDigits(s: string) { forall i :: 0 <= i < |s| ==> IsDigit(s[i]) }
  predicate AllUpper(s: string) { forall i :: 0 <= i < |s| ==> IsUpper(s[i]) }

  /** String#succ on a string of digits: the last digit steps, with '9' carrying left. */
  function SuccDigits(s: string): (r: string)
    requires AllDigits(s)
    ensures AllDigits(r) && r != []
    ensures |s| <= |r| <= |s| + 1
  {
    if s == [] then "1"
    else
      var c := s[|s| - 1];
      if c == '9' then SuccDigits(s[..|s| - 1]) + "0"
      else s[..|s| - 1] + [(c as int + 1) as char]
  }

  /** String#succ on a string of uppercase letters: 'Z' carries left. */
  function SuccUpper(s: string): (r: string)
    requires AllUpper(s)
    ensures AllUpper(r) && r != []
    ensures |s| <= |r| <= |s| + 1
  {
    if s == [] then "A"
    else
      var c := s[|s| - 1];
      if c == 'Z' then SuccUpper(s[..|s| - 1]) + "A"
      else s[..|s| - 1] + [(c as int + 1) as char]
  }

  /** String#succ restricted to the two alphabets part numbers are drawn from. */
  function Succ(s: string): (r: string)
    requires s != [] && (AllDigits(s) || AllUpper(s))
    ensures AllDigits(s) ==> r == SuccDigits(s)
    ensures !AllDigits(s) ==> r == SuccUpper(s)
  {
    if AllDigits(s) then SuccDigits(s) else SuccUpper(s)
  }

  /** The decimal numeral of a positive number, without leading zeros. */
  function Decimal(n: nat): (r: string)
    requires n >= 1
    ensures r != [] && AllDigits(r) && r[0] != '0'
    decreases n
  {
    var d := [('0' as int + n % 10) as char];
    if n < 10 then d else Decimal(n / 10) + d
  }

  /** The bijective base-26 numeral of a positive number: 1 is "A", 26 "Z", 27 "AA". */
  function Alpha(n: nat): (r: string)
    requires n >= 1
    ensures r != [] && AllUpper(r)
    decreases n
  {
    var d := [('A' as int + (n - 1) % 26) as char];
    if n <= 26 then d else Alpha((n - 1) / 26) + d
  }

  /** The number of the `i`-th part of a sequence (from 0): "1"-based digits or "A"-based letters. */
  function Label(i: nat, letters: bool): (r: string)
    ensures r != []
    ensures letters ==> AllUpper(r)
    ensures !letters ==> AllDigits(r)
  {
    if letters then Alpha(i + 1) else Decimal(i + 1)
  }

  /** The value a decimal numeral denotes. */
  function DecimalValue(s: string): nat
    requires AllDigits(s)
  {
    if s == [] then 0 else DecimalValue(s[..|s| - 1]) * 10 + (s[|s| - 1] as int - '0' as int)
  }

  /** The value a bijective base-26 numeral denotes. */
  function AlphaValue(s: string): nat
    requires AllUpper(s)
  {
    if s == [] then 0 else AlphaValue(s[..|s| - 1]) * 26 + (s[|s| - 1] as int - 'A' as int + 1)
  }

  lemma DigitCut(p: string, c: char)
    requires AllDigits(p) && IsDigit(c)
    ensures AllDigits(p + [c]) && (p + [c])[..|p|] == p && (p + [c])[|p|] == c
  {
    assert (p + [c])[..|p|] == p;
  }

  lemma UpperCut(p: string, c: char)
    requires AllUpper(p) && IsUpper(c)
    ensures AllUpper(p + [c]) && (p + [c])[..|p|] == p && (p + [c])[|p|] == c
  {
    assert (p + [c])[..|p|] == p;
  }

  /** Reading back a numeral gives the number written: Decimal is injective. */
  lemma {:induction false} DecimalRoundTrip(n: nat)
    requires n >= 1
    ensures DecimalValue(Decimal(n)) == n
    decreases n
  {
    var c := ('0' as int + n % 10) as char;
    if n >= 10 {
      DecimalRoundTrip(n / 10);
      DigitCut(Decimal(n / 10), c);
    }
  }

  lemma {:induction false} AlphaRoundTrip(n: nat)
    requires n >= 1
    ensures AlphaValue(Alpha(n)) == n
    decreases n
  {
    var c := ('A' as int + (n - 1) % 26) as char;
    if n > 26 {
      AlphaRoundTrip((n - 1) / 26);
      UpperCut(Alpha((n - 1) / 26), c);
    }
  }

  /** String#succ on a decimal numeral writes the next number. */
  lemma {:induction false} SuccDecimal(n: nat)
    requires n >= 1
    ensures SuccDigits(Decimal(n)) == Decimal(n + 1)
    decreases n
  {
    var c := ('0' as int + n % 10) as char;
    var s := Decimal(n);
    if n < 10 {
      assert s == [c];
      assert s[..0] == [];
      if n == 9 {
        assert Decimal(10) == Decimal(1) + "0";
      }
    } else {
      var p := Decimal(n / 10);
      assert s == p + [c];
      DigitCut(p, c);
      if n % 10 == 9 {
        SuccDecimal(n / 10);
        assert (n + 1) / 10 == n / 10 + 1 && (n + 1) % 10 == 0;
      } else {
        assert (n + 1) / 10 == n / 10 && (n + 1) % 10 == n % 10 + 1;
      }
    }
  }

  /** String#succ on a letter numeral writes the next number. */
  lemma {:induction false} SuccAlpha(n: nat)
    requires n >= 1
    ensures SuccUpper(Alpha(n)) == Alpha(n + 1)
    decreases n
  {
    if n <= 26 {
      SuccAlphaDigit(n);
    } else {
      var q, r := (n - 1) / 26, (n - 1) % 26;
      AlphaSplit(n, q, r);
      var p := Alpha(q);
      var c := ('A' as int + r) as char;
      UpperCut(p, c);
      if r == 25 {
        SuccAlpha(q);
      }
    }
  }

  /** A numeral of two letters or more: its last letter, and the next numeral. */
  lemma AlphaSplit(n: nat, q: nat, r: nat)
    requires n > 26 && n - 1 == 26 * q + r && r < 26
    ensures q >= 1 && Alpha(n) == Alpha(q) + [('A' as int + r) as char]
    ensures r == 25 ==> Alpha(n + 1) == Alpha(q + 1) + "A"
    ensures r < 25 ==> Alpha(n + 1) == Alpha(q) + [('A' as int + r + 1) as char]
  {
    NextQuotient(n, q, r);
  }

  /** The one-letter numerals: 'A' to 'Y' step to the next letter, 'Z' carries to "AA". */
  lemma SuccAlphaDigit(n: nat)
    requires 1 <= n <= 26
    ensures SuccUpper(Alpha(n)) == Alpha(n + 1)
  {
    var c := ('A' as int + n - 1) as char;
    assert Alpha(n) == [c];
    assert [c][..0] == [];
    if n == 26 {
      assert Alpha(27) == Alpha(1) + "A";
    } else {
      assert Alpha(n + 1) == [(c as int + 1) as char];
    }
  }

  lemma NextQuotient(n: nat, q: nat, r: nat)
    requires n >= 1 && n - 1 == 26 * q + r && r < 26
    ensures r == 25 ==> n / 26 == q + 1 && n % 26 == 0
    ensures r < 25 ==> n / 26 == q && n % 26 == r + 1
  {
  }

  /** Advancing a part number with succ moves to the next label of the same alphabet. */
  lemma SuccLabel(i: nat, letters: bool)
    ensures Succ(Label(i, letters)) == Label(i + 1, letters)
  {
    if letters {
      var s := Alpha(i + 1);
      assert Label(i, letters) == s && Label(i + 1, letters) == Alpha(i + 2);
      UpperNotDigits(s);
      SuccAlpha(i + 1);
    } else {
      assert Label(i, letters) == Decimal(i + 1) && Label(i + 1, letters) == Decimal(i + 2);
      SuccDecimal(i + 1);
    }
  }

  lemma UpperNotDigits(s: string)
    requires s != [] && AllUpper(s)
    ensures !AllDigits(s)
  {
    assert IsUpper(s[0]);
  }

  /** The position a part number denotes, read back in its alphabet (0 for a string of neither). */
  function LabelValue(s: string, letters: bool): nat {
    if letters then (if AllUpper(s) then AlphaValue(s) else 0)
    else (if AllDigits(s) then DecimalValue(s) else 0)
  }

  /** Reading a part number back gives its position, counted from 1. */
  lemma LabelRoundTrip(i: nat, letters: bool)
    ensures LabelValue(Label(i, letters), letters) == i + 1
  {
    if letters {
      assert Label(i, letters) == Alpha(i + 1);
      AlphaRoundTrip(i + 1);
    } else {
      assert Label(i, letters) == Decimal(i + 1);
      DecimalRoundTrip(i + 1);
    }
  }

  /** Labels of different positions differ: part numbers in one sequence are unique. */
  lemma LabelInjective(i: nat, j: nat, letters: bool)
    requires Label(i, letters) == Label(j, letters)
    ensures i == j
  {
    LabelRoundTrip(i, letters);
    LabelRoundTrip(j, letters);
  }

  /** The first labels and the carries: "1", "9" to "10", "A", "Z" to "AA", "AZ" to "BA". */
  lemma LabelExamples()
    ensures Label(0, false) == "1" && Label(0, true) == "A"
    ensures Label(9, false) == "10" && Label(26, true) == "AA" && Label(52, true) == "BA"
  {
  }
}
