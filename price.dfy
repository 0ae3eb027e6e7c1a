/**
 * Price-number extraction (`extract_number`): trim the text, delete every
 * `,`, take the first maximal run of `[0-9.]` characters and read it as a
 * number. The value is kept as an exact decimal (`real`).
 */
module Price {
  import opened Wrappers
  import opened Python
  import opened Seqs
  import opened Text

  predicate IsDigit(c: char) { '0' <= c <= '9' }

  /** The character class `[\d\.]` of the search pattern. */
  predicate IsNumberChar(c: char) { IsDigit(c) || c == '.' }

  /** `(matched, value)`: the pair `extract_number` returns. */
  datatype PricePair = PricePair(matched: bool, value: Option<real>)

  /** `text.strip().replace(",", "")` */
  function Clean(text: string): (cleaned: string)
    ensures |cleaned| <= |text| && ',' !in cleaned
  {
    RemoveAll(Strip(text), ',')
  }

  /** Cleaning never removes a digit or a `.`, and never keeps a comma. */
  lemma CleanKeepsNumberChars(text: string)
    ensures ',' !in Clean(text)
    ensures forall i :: 0 <= i < |text| && IsNumberChar(text[i]) ==> text[i] in Clean(text)
    ensures forall c :: c in Clean(text) ==> c in text
  {
    StripKeeps(text);
    RemoveAllKeeps(Strip(text), ',');
  }

  /** Where `re.search(r"[\d\.]+", s)` starts matching: the first number character, or `|s|`. */
  function RunStart(s: string): (start: nat)
    ensures start <= |s|
    ensures forall i :: 0 <= i < start ==> !IsNumberChar(s[i])
    ensures start < |s| ==> IsNumberChar(s[start])
  {
    LeadingCount(s, c => !IsNumberChar(c))
  }

  /**
   * What `re.search(r"[\d\.]+", s)` matches: the maximal run of number
   * characters at `RunStart(s)`, or `[]` when `s` has no number character.
   */
  function FirstRun(s: string): (run: string)
    ensures RunStart(s) + |run| <= |s| && run == s[RunStart(s)..RunStart(s) + |run|]
    ensures forall i :: 0 <= i < |run| ==> IsNumberChar(run[i])
    ensures RunStart(s) + |run| < |s| ==> !IsNumberChar(s[RunStart(s) + |run|])
    ensures run == [] <==> forall i :: 0 <= i < |s| ==> !IsNumberChar(s[i])
  {
    var start := RunStart(s);
    if start == |s| then []
    else
      var len := LeadingCount(s[start..], IsNumberChar);
      assert len > 0;
      s[start..start + len]
  }

  /**
   * The runs that Python's `float()` accepts: at least one digit and at most
   * one `.` (`"."` and `"1.2.3"` are refused).
   */
  predicate IsFloatLiteral(run: string): (ok: bool)
    ensures ok ==> run != []
  {
    (exists i :: 0 <= i < |run| && IsDigit(run[i]))
    && forall i, j :: 0 <= i < j < |run| && run[i] == '.' ==> run[j] != '.'
  }

  function Pow10(n: nat): (p: nat)
    ensures p > 0
  {
    if n == 0 then 1 else 10 * Pow10(n - 1)
  }

  /** The integer a string of decimal digits denotes. */
  function DigitsValue(ds: string): nat
    requires forall i :: 0 <= i < |ds| ==> IsDigit(ds[i])
  {
    if ds == [] then 0
    else
      assert IsDigit(ds[|ds| - 1]);
      10 * DigitsValue(ds[..|ds| - 1]) + (ds[|ds| - 1] as int - '0' as int)
  }

  /** The exact number a float literal of digits and at most one point denotes. */
  function DecimalValue(run: string): (v: real)
    requires forall i :: 0 <= i < |run| ==> IsNumberChar(run[i])
    requires IsFloatLiteral(run)
    ensures v >= 0.0
  {
    var d := LeadingCount(run, IsDigit);
    var whole := DigitsValue(run[..d]) as real;
    if d == |run| then whole
    else
      assert IsNumberChar(run[d]) && run[d] == '.';
      assert forall i :: d < i < |run| ==> IsNumberChar(run[i]) && run[i] != '.';
      var fraction := run[d + 1..];
      whole + DigitsValue(fraction) as real / Pow10(|fraction|) as real
  }

  /**
   * `extract_number`: `(False, None)` when the cleaned text has no number
   * character at all, `(True, v)` when its first run is a float literal,
   * and the `ValueError` of `float()` otherwise.
   */
  function ExtractNumber(stringNumber: string): (r: Py<PricePair>)
    ensures r.Return? ==> (r.value.matched <==> r.value.value.Some?)
  {
    var stringNumber' := Clean(stringNumber);
    var number := FirstRun(stringNumber');
    if number == [] then Return(PricePair(false, None))
    else if IsFloatLiteral(number) then Return(PricePair(true, Some(DecimalValue(number))))
    else Raise(FloatValueError(number))
  }

  /**
   * No match happens exactly when the original text has no digit and no
   * `.` anywhere: trimming and deleting commas never remove one.
   */
  lemma NoMatchIffNoNumberChar(text: string)
    ensures ExtractNumber(text) == Return(PricePair(false, None)) <==>
      forall i :: 0 <= i < |text| ==> !IsNumberChar(text[i])
  {
    var cleaned := Clean(text);
    CleanKeepsNumberChars(text);
    if forall i :: 0 <= i < |text| ==> !IsNumberChar(text[i]) {
      forall i | 0 <= i < |cleaned|
        ensures !IsNumberChar(cleaned[i])
      {
        assert cleaned[i] in cleaned;
      }
    } else {
      var i :| 0 <= i < |text| && IsNumberChar(text[i]);
      var j :| 0 <= j < |cleaned| && cleaned[j] == text[i];
      assert FirstRun(cleaned) != [];
    }
  }

  /** Appending one digit to `x * p + d` multiplies the place value `p` by ten. */
  lemma ShiftDigit(x: int, p: int, d: int, last: int)
    ensures 10 * (x * p + d) + last == x * (10 * p) + (10 * d + last)
  {
  }

  /** `w + f / p` is the integer `w * p + f` over `p`. */
  lemma OverCommonScale(v: real, w: int, f: int, p: int, digits: int)
    requires p > 0 && v == w as real + f as real / p as real && digits == w * p + f
    ensures v == digits as real / p as real
  {
  }

  /** Digits written after digits shift the first ones left by one place each. */
  lemma {:induction false} DigitsValueAppend(a: string, b: string)
    requires forall i :: 0 <= i < |a| ==> IsDigit(a[i])
    requires forall i :: 0 <= i < |b| ==> IsDigit(b[i])
    ensures DigitsValue(a + b) == DigitsValue(a) * Pow10(|b|) + DigitsValue(b)
  {
    if b == [] {
      assert a + b == a;
    } else {
      var init := b[..|b| - 1];
      assert (a + b)[..|a + b| - 1] == a + init && (a + b)[|a + b| - 1] == b[|b| - 1];
      DigitsValueAppend(a, init);
      var x, p, d := DigitsValue(a), Pow10(|init|), DigitsValue(init);
      var last := b[|b| - 1] as int - '0' as int;
      assert DigitsValue(a + b) == 10 * (x * p + d) + last;
      assert DigitsValue(b) == 10 * d + last;
      assert Pow10(|b|) == 10 * p;
      ShiftDigit(x, p, d, last);
    }
  }

  /** A literal with its point at `k`, the end of its leading digits. */
  lemma DecimalValueAtPoint(run: string, k: nat)
    requires forall i :: 0 <= i < |run| ==> IsNumberChar(run[i])
    requires IsFloatLiteral(run)
    requires k == LeadingCount(run, IsDigit) < |run|
    ensures run[k] == '.'
    ensures forall i :: 0 <= i < |run| && i != k ==> IsDigit(run[i])
    ensures DecimalValue(run) == DigitsValue(run[..k] + run[k + 1..]) as real / Pow10(|run[k + 1..]|) as real
  {
    assert IsNumberChar(run[k]);
    forall i | k < i < |run|
      ensures IsDigit(run[i])
    {
      assert IsNumberChar(run[i]) && run[i] != '.';
    }
    var a, b := run[..k], run[k + 1..];
    assert forall i :: 0 <= i < |b| ==> IsDigit(b[i]) by {
      forall i | 0 <= i < |b|
        ensures IsDigit(b[i])
      {
        assert b[i] == run[k + 1 + i];
      }
    }
    DigitsValueAppend(a, b);
    OverCommonScale(DecimalValue(run), DigitsValue(a), DigitsValue(b), Pow10(|b|), DigitsValue(a + b));
  }

  /**
   * The value `float()` gives a literal: its digits read as an integer,
   * scaled down by one power of ten per digit after the point.
   */
  lemma DecimalValueScaled(run: string)
    requires forall i :: 0 <= i < |run| ==> IsNumberChar(run[i])
    requires IsFloatLiteral(run)
    ensures '.' !in run ==> DecimalValue(run) == DigitsValue(run) as real
    ensures forall d :: 0 <= d < |run| && run[d] == '.' ==>
      DecimalValue(run) == DigitsValue(run[..d] + run[d + 1..]) as real / Pow10(|run[d + 1..]|) as real
  {
    var k := LeadingCount(run, IsDigit);
    if k == |run| {
      assert run[..k] == run;
      forall i | 0 <= i < |run|
        ensures run[i] != '.'
      {
        assert IsDigit(run[i]);
      }
    } else {
      DecimalValueAtPoint(run, k);
      forall d | 0 <= d < |run| && run[d] == '.'
        ensures d == k
      {
        assert !IsDigit(run[d]);
      }
    }
  }

  /** A nonempty run of number characters is its own cleaned text and its own first run. */
  lemma RunIsFixedPoint(run: string)
    requires run != []
    requires forall i :: 0 <= i < |run| ==> IsNumberChar(run[i])
    ensures Clean(run) == run && FirstRun(run) == run
  {
    forall i | 0 <= i < |run|
      ensures !IsSpace(run[i]) && run[i] != ','
    {
      assert IsNumberChar(run[i]);
    }
    assert Strip(run) == run;
    assert RunStart(run) == 0 by {
      assert IsNumberChar(run[0]);
    }
    LeadingCountAll(run[0..], IsNumberChar);
  }

  /**
   * Extracting again from the first run alone gives the same outcome:
   * `extract_number` only ever looks at that run.
   */
  lemma ReExtractFirstRun(text: string)
    ensures ExtractNumber(FirstRun(Clean(text))) == ExtractNumber(text)
  {
    var run := FirstRun(Clean(text));
    if run == [] {
      assert Clean(run) == [] && FirstRun(Clean(run)) == [];
    } else {
      RunIsFixedPoint(run);
    }
  }

  /** A thousands separator between comma-free digit groups is dropped, and both groups kept. */
  lemma RemoveSeparator(a: string, b: string)
    requires ',' !in a && ',' !in b
    ensures RemoveAll(a + [','] + b, ',') == a + b
  {
    var comma: string := [','];
    RemoveAllAppend(a + comma, b, ',');
    RemoveAllAppend(a, comma, ',');
    assert RemoveAll(comma, ',') == [] by {
      assert comma[1..] == [];
    }
    assert a + [] == a;
  }

  /** `"1,234.50"` cleans to `"1234.50"`. */
  lemma CleanGroupedExample(text: string)
    requires text == "1,234.50"
    ensures Clean(text) == "1234.50"
  {
    var a, b: string := "1", "234.50";
    assert text == a + [','] + b && a + b == "1234.50";
    assert ',' !in b by {
      forall i | 0 <= i < |b|
        ensures b[i] != ','
      {
      }
    }
    StripUnpadded(text);
    RemoveSeparator(a, b);
  }

  lemma DecimalValueExample(run: string)
    requires run == "1234.50"
    ensures IsFloatLiteral(run) && DecimalValue(run) == 1234.5
  {
    assert IsDigit(run[0]);
    assert LeadingCount(run, IsDigit) == 4 by {
      assert IsDigit(run[0]) && IsDigit(run[1]) && IsDigit(run[2]) && IsDigit(run[3]) && !IsDigit(run[4]);
    }
    var whole, frac := run[..4], run[5..];
    assert whole[..1] == "1" && whole[..2][..1] == whole[..1] && whole[..3][..2] == whole[..2];
    assert DigitsValue(whole[..1]) == 1;
    assert DigitsValue(whole[..2]) == 12;
    assert DigitsValue(whole[..3]) == 123;
    assert DigitsValue(whole) == 1234;
    assert frac[..1] == "5";
    assert DigitsValue(frac[..1]) == 5;
    assert DigitsValue(frac) == 50;
    assert Pow10(2) == 100;
  }

  /** The thousands separator is dropped and the decimal part kept exactly. */
  lemma ExtractNumberGroupedExample(text: string)
    requires text == "1,234.50"
    ensures ExtractNumber(text) == Return(PricePair(true, Some(1234.5)))
  {
    CleanGroupedExample(text);
    var run := Clean(text);
    RunIsFixedPoint(run);
    DecimalValueExample(run);
  }

  lemma ExtractNumberNoPriceExample(text: string)
    requires text == "no price"
    ensures ExtractNumber(text) == Return(PricePair(false, None))
  {
    forall i | 0 <= i < |text|
      ensures !IsNumberChar(text[i])
    {
    }
    NoMatchIffNoNumberChar(text);
  }

  /** A run with two points makes `float()` raise. */
  lemma ExtractNumberTwoPointsExample(text: string)
    requires text == "1.2.3"
    ensures ExtractNumber(text).Raise?
  {
    RunIsFixedPoint(text);
    assert !IsFloatLiteral(text) by {
      assert text[1] == '.' && text[3] == '.';
    }
  }

  /** A point alone makes `float()` raise. */
  lemma ExtractNumberLonePointExample(text: string)
    requires text == "."
    ensures ExtractNumber(text).Raise?
  {
    RunIsFixedPoint(text);
    assert !IsFloatLiteral(text);
  }
}
