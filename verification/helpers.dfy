/** The pure helpers of the frontend: the e-mail and phone validators, the
    empty-date rule of `formatDate`, and the month-difference duration text. */
module Helpers {
  import opened Wrappers
  import opened Strings

  // ---------------------------------------------------------------------------
  // E-mail: the pattern  ^[^\s@]+@[^\s@]+\.[^\s@]+$
  // ---------------------------------------------------------------------------

  /** A character of the class `[^\s@]`. */
  predicate Plain(c: char)
  {
    !IsJsWhitespace(c) && c != '@'
  }

  predicate AllPlain(s: string)
  {
    forall k :: 0 <= k < |s| ==> Plain(s[k])
  }

  /** The position of the first `c` in `s`, or `|s|` when there is none. */
  function FirstIndexOf(s: string, c: char): (i: nat)
    ensures i <= |s|
    ensures forall k :: 0 <= k < i ==> s[k] != c
    ensures i < |s| ==> s[i] == c
  {
    if |s| == 0 then 0
    else if s[0] == c then 0
    else 1 + FirstIndexOf(s[1..], c)
  }

  /** The domain part `[^\s@]+\.[^\s@]+`: plain, with a dot that is neither
      its first nor its last character. */
  predicate DomainMatches(d: string)
  {
    AllPlain(d) && |d| >= 3 && '.' in d[1..|d| - 1]
  }

  /** `validateEmail`: split at the first '@' and check both sides. */
  predicate ValidateEmail(s: string)
  {
    var at := FirstIndexOf(s, '@');
    at < |s| && at > 0 && AllPlain(s[..at]) && DomainMatches(s[at + 1..])
  }

  /** The regular expression read literally: a non-empty plain local part,
      '@', a non-empty plain run, '.', and a non-empty plain run. */
  ghost predicate EmailShape(s: string)
  {
    exists i, j {:trigger s[i], s[j]} ::
      && 0 < i && i + 1 < j && j + 1 < |s|
      && s[i] == '@' && s[j] == '.'
      && AllPlain(s[..i]) && AllPlain(s[i + 1..j]) && AllPlain(s[j + 1..])
  }

  lemma AllPlainSlice(d: string, a: int, b: int)
    requires AllPlain(d) && 0 <= a <= b <= |d|
    ensures AllPlain(d[a..b])
  {
    forall q | 0 <= q < b - a ensures Plain(d[a..b][q]) {
      assert d[a..b][q] == d[a + q];
    }
  }

  lemma AllPlainJoin(x: string, c: char, y: string)
    requires AllPlain(x) && Plain(c) && AllPlain(y)
    ensures AllPlain(x + [c] + y)
  {
    var z := x + [c] + y;
    forall q | 0 <= q < |z| ensures Plain(z[q]) {
      if q < |x| { assert z[q] == x[q]; }
      else if q == |x| { assert z[q] == c; }
      else { assert z[q] == y[q - |x| - 1]; }
    }
  }

  lemma FirstIndexOfIs(s: string, c: char, i: nat)
    requires i < |s| && s[i] == c
    requires forall k :: 0 <= k < i ==> s[k] != c
    ensures FirstIndexOf(s, c) == i
  {
  }

  lemma ValidEmailHasShape(s: string)
    requires ValidateEmail(s)
    ensures EmailShape(s)
  {
    var at := FirstIndexOf(s, '@');
    var d := s[at + 1..];
    var m := d[1..|d| - 1];
    var k :| 0 <= k < |m| && m[k] == '.';
    var j := at + 2 + k;
    assert s[j] == d[k + 1];
    AllPlainSlice(d, 0, k + 1);
    assert s[at + 1..j] == d[0..k + 1];
    AllPlainSlice(d, k + 2, |d|);
    assert s[j + 1..] == d[k + 2..|d|];
    assert s[at] == '@';
  }

  lemma ShapeIsValidEmail(s: string, i: int, j: int)
    requires 0 < i && i + 1 < j && j + 1 < |s|
    requires s[i] == '@' && s[j] == '.'
    requires AllPlain(s[..i]) && AllPlain(s[i + 1..j]) && AllPlain(s[j + 1..])
    ensures ValidateEmail(s)
  {
    forall k | 0 <= k < i ensures s[k] != '@' {
      assert s[k] == s[..i][k];
    }
    FirstIndexOfIs(s, '@', i);
    var d := s[i + 1..];
    assert d == s[i + 1..j] + [s[j]] + s[j + 1..];
    AllPlainJoin(s[i + 1..j], s[j], s[j + 1..]);
    assert d[1..|d| - 1][j - i - 2] == s[j];
  }

  /** The validator accepts exactly the strings of the pattern. */
  lemma ValidateEmailMatchesPattern(s: string)
    ensures ValidateEmail(s) <==> EmailShape(s)
  {
    if ValidateEmail(s) {
      ValidEmailHasShape(s);
    }
    if EmailShape(s) {
      var i, j :| 0 < i && i + 1 < j && j + 1 < |s| && s[i] == '@' && s[j] == '.'
        && AllPlain(s[..i]) && AllPlain(s[i + 1..j]) && AllPlain(s[j + 1..]);
      ShapeIsValidEmail(s, i, j);
    }
  }

  /** The validator never accepts whitespace or a second '@'. */
  lemma ValidEmailHasOneAt(s: string)
    requires ValidateEmail(s)
    ensures forall k :: 0 <= k < |s| ==> !IsJsWhitespace(s[k])
    ensures exists i :: 0 < i < |s| && s[i] == '@' && forall k :: 0 <= k < |s| && k != i ==> s[k] != '@'
  {
    var at := FirstIndexOf(s, '@');
    var d := s[at + 1..];
    forall k | 0 <= k < |s|
      ensures !IsJsWhitespace(s[k]) && (k != at ==> s[k] != '@')
    {
      if k < at {
        assert s[k] == s[..at][k];
      } else if k > at {
        assert s[k] == d[k - at - 1];
      }
    }
  }

  // ---------------------------------------------------------------------------
  // Phone: strip [\s\-\(\)] then match  ^[\+]?[1-9][\d]{0,15}$
  // ---------------------------------------------------------------------------

  /** The characters the validator deletes before matching. */
  predicate IsPhoneFormatting(c: char)
  {
    IsJsWhitespace(c) || c == '-' || c == '(' || c == ')'
  }

  /** `phone.replace(/[\s\-\(\)]/g, "")`. */
  function StripPhone(s: string): (r: string)
    ensures |r| <= |s|
    ensures forall c :: c in r <==> c in s && !IsPhoneFormatting(c)
  {
    if |s| == 0 then ""
    else if IsPhoneFormatting(s[0]) then StripPhone(s[1..])
    else assert s == [s[0]] + s[1..]; [s[0]] + StripPhone(s[1..])
  }

  /** Stripping distributes over concatenation. */
  lemma {:induction false} StripPhoneAppend(a: string, b: string)
    ensures StripPhone(a + b) == StripPhone(a) + StripPhone(b)
    decreases |a|
  {
    if |a| > 0 {
      var c := a[0];
      assert (a + b)[0] == c && (a + b)[1..] == a[1..] + b;
      StripPhoneAppend(a[1..], b);
      if IsPhoneFormatting(c) {
        assert StripPhone(a + b) == StripPhone(a[1..] + b);
        assert StripPhone(a) == StripPhone(a[1..]);
      } else {
        assert StripPhone(a + b) == [c] + StripPhone(a[1..] + b);
        assert StripPhone(a) == [c] + StripPhone(a[1..]);
      }
    } else {
      assert a + b == b;
    }
  }

  /** The stripped number without its optional leading '+'. */
  function WithoutPlus(t: string): string
  {
    if |t| > 0 && t[0] == '+' then t[1..] else t
  }

  /** `[1-9][\d]{0,15}`: 1 to 16 digits, the first not zero. */
  predicate DigitRun(u: string)
  {
    1 <= |u| <= 16 && '1' <= u[0] <= '9' && forall k :: 0 <= k < |u| ==> IsDigit(u[k])
  }

  /** `[\+]?[1-9][\d]{0,15}` matched against the whole stripped string. */
  predicate PhoneDigitsMatch(t: string)
  {
    DigitRun(WithoutPlus(t))
  }

  /** `validatePhone`. */
  predicate ValidatePhone(s: string)
  {
    PhoneDigitsMatch(StripPhone(s))
  }

  /** Inserting a formatting character anywhere never changes the verdict. */
  lemma FormattingIsIgnored(a: string, c: char, b: string)
    requires IsPhoneFormatting(c)
    ensures ValidatePhone(a + [c] + b) == ValidatePhone(a + b)
  {
    assert a + [c] + b == a + ([c] + b);
    StripPhoneAppend(a, [c] + b);
    assert ([c] + b)[0] == c && ([c] + b)[1..] == b;
    assert StripPhone([c] + b) == StripPhone(b);
    StripPhoneAppend(a, b);
    assert StripPhone(a + [c] + b) == StripPhone(a + b);
  }

  /** The pattern read as a regular expression with `[\+]?` as a choice
      between two alternatives: a '+' followed by a digit run, or a digit
      run on its own. */
  predicate PhonePattern(t: string)
  {
    (|t| > 0 && t[0] == '+' && DigitRun(t[1..])) || DigitRun(t)
  }

  /** The validator accepts exactly the inputs whose stripped form matches
      the two-alternative reading: one optional leading '+', never two. */
  lemma ValidPhoneShape(s: string)
    ensures ValidatePhone(s) <==> PhonePattern(StripPhone(s))
  {
    var t := StripPhone(s);
    if |t| > 0 && t[0] == '+' {
      assert !IsDigit(t[0]);
      assert !DigitRun(t);
    }
  }

  /** One leading '+' is allowed. */
  lemma PlusSignAccepted()
    ensures ValidatePhone("+12")
  {
    StripKeeps("+12");
  }

  /** A lone '+' is rejected: the digit run after it is empty. */
  lemma LonePlusRejected()
    ensures !ValidatePhone("+")
  {
    StripKeeps("+");
  }

  /** A doubled '+' is rejected: the sign is optional, not repeatable. */
  lemma DoublePlusRejected()
    ensures !ValidatePhone("++1")
  {
    StripKeeps("++1");
  }

  /** More than sixteen digits are rejected, with or without the sign. */
  lemma LongNumberRejected(ds: string)
    requires |ds| > 16 && forall k :: 0 <= k < |ds| ==> IsDigit(ds[k])
    ensures !ValidatePhone(ds)
    ensures !ValidatePhone("+" + ds)
  {
    StripDigits(ds);
    assert WithoutPlus(ds) == ds;
    var t := "+" + ds;
    assert t[0] == '+' && !IsPhoneFormatting('+') && t[1..] == ds;
    assert StripPhone(t) == [t[0]] + StripPhone(t[1..]);
    assert WithoutPlus(StripPhone(t)) == ds;
  }

  /** A string of digits has nothing to strip. */
  lemma {:induction false} StripDigits(s: string)
    requires forall k :: 0 <= k < |s| ==> IsDigit(s[k])
    ensures StripPhone(s) == s
    decreases |s|
  {
    if |s| > 0 {
      assert !IsPhoneFormatting(s[0]);
      StripDigits(s[1..]);
    }
  }

  /** A string without formatting characters has nothing to strip. */
  lemma {:induction false} StripKeeps(s: string)
    requires forall k :: 0 <= k < |s| ==> !IsPhoneFormatting(s[k])
    ensures StripPhone(s) == s
    decreases |s|
  {
    if |s| > 0 {
      assert !IsPhoneFormatting(s[0]);
      StripKeeps(s[1..]);
    }
  }

  /** The empty string is rejected. */
  lemma EmptyPhoneRejected()
    ensures !ValidatePhone("")
  {
    assert StripPhone("") == "";
  }

  /** A stripped number starting with '0' is rejected. */
  lemma LeadingZeroRejected(s: string)
    requires |StripPhone(s)| > 0 && StripPhone(s)[0] == '0'
    ensures !ValidatePhone(s)
  {
  }

  /** A separator outside the stripped set, such as '.', is rejected. */
  lemma DotRejected(s: string)
    requires '.' in s
    ensures !ValidatePhone(s)
  {
    var t := StripPhone(s);
    assert !IsPhoneFormatting('.');
    assert '.' in t;
  }

  // ---------------------------------------------------------------------------
  // Dates
  // ---------------------------------------------------------------------------

  /** `formatDate`: the empty date is the label "Present"; any other date is
      handed to the locale formatter `fmt`, which the model does not open. */
  function FormatDate(date: string, fmt: string -> string): (r: string)
    ensures date == "" ==> r == "Present"
    ensures date != "" ==> r == fmt(date)
  {
    if date == "" then "Present" else fmt(date)
  }

  /** JavaScript's `%`: the remainder takes the sign of the dividend. */
  function JsRem(a: int, b: int): (r: int)
    requires b > 0
    ensures a >= 0 ==> 0 <= r < b
    ensures a <= 0 ==> -b < r <= 0
  {
    if a >= 0 then a % b else -((-a) % b)
  }

  /** A calendar position as `Date.getFullYear()` and `Date.getMonth()`
      report it (month 0 is January). */
  datatype YearMonth = YearMonth(year: int, month: int)

  /** The month difference of `calculateDuration`; a current job ends "now". */
  function MonthsBetween(start: YearMonth, end: YearMonth, currentlyWorking: bool, today: YearMonth): int
  {
    var e := if currentlyWorking then today else end;
    (e.year - start.year) * 12 + (e.month - start.month)
  }

  /** `n unit` with an "s" unless `n` is exactly one. */
  function CountText(n: int, unit: string): string
  {
    IntToString(n) + " " + unit + (if n != 1 then "s" else "")
  }

  /** The text for a month difference: years by floor division, the rest by
      JavaScript's truncating remainder. */
  function DurationText(months: int): string
  {
    var years := months / 12;
    var rem := JsRem(months, 12);
    if years == 0 then CountText(rem, "month")
    else if rem == 0 then CountText(years, "year")
    else CountText(years, "year") + " " + CountText(rem, "month")
  }

  /** `calculateDuration`. */
  function CalculateDuration(start: YearMonth, end: YearMonth, currentlyWorking: bool, today: YearMonth): string
  {
    DurationText(MonthsBetween(start, end, currentlyWorking, today))
  }

  /** For a non-negative difference, years and remaining months recompose it. */
  lemma DurationSplit(months: int)
    requires months >= 0
    ensures (months / 12) * 12 + JsRem(months, 12) == months
    ensures 0 <= JsRem(months, 12) < 12
  {
  }

  /** A current job ignores the stored end date. */
  lemma CurrentJobIgnoresEndDate(start: YearMonth, end1: YearMonth, end2: YearMonth, today: YearMonth)
    ensures CalculateDuration(start, end1, true, today) == CalculateDuration(start, end2, true, today)
    ensures CalculateDuration(start, end1, true, today) == CalculateDuration(start, today, false, today)
  {
  }

  // Reading a duration text back ------------------------------------------------

  /** `s.split(" ")`. */
  function SplitSpaces(s: string): (r: seq<string>)
    ensures |r| >= 1
  {
    if |s| == 0 then [""]
    else if s[0] == ' ' then [""] + SplitSpaces(s[1..])
    else var rest := SplitSpaces(s[1..]); [[s[0]] + rest[0]] + rest[1..]
  }

  lemma {:induction false} SplitNoSpace(a: string)
    requires ' ' !in a
    ensures SplitSpaces(a) == [a]
    decreases |a|
  {
    if |a| > 0 {
      SplitNoSpace(a[1..]);
      assert [a[0]] + a[1..] == a;
    }
  }

  lemma {:induction false} SplitAtSpace(a: string, b: string)
    requires ' ' !in a
    ensures SplitSpaces(a + " " + b) == [a] + SplitSpaces(b)
    decreases |a|
  {
    if |a| == 0 {
      assert a + " " + b == [' '] + b;
      assert (a + " " + b)[1..] == b;
    } else {
      assert (a + " " + b)[1..] == a[1..] + " " + b;
      SplitAtSpace(a[1..], b);
      assert [a[0]] + a[1..] == a;
    }
  }

  predicate IsNumeral(w: string)
  {
    |w| > 0 && forall k :: 0 <= k < |w| ==> IsDigit(w[k])
  }

  /** Reads "N month(s)", "N year(s)" or "Y year(s) M month(s)" back into a
      number of months. */
  function ParseDuration(text: string): Option<int>
  {
    ParseWords(SplitSpaces(text))
  }

  function ParseWords(w: seq<string>): Option<int>
  {
    if |w| == 2 && IsNumeral(w[0]) && IsMonthWord(w[1]) then Some(DecimalValue(w[0]))
    else if |w| == 2 && IsNumeral(w[0]) && IsYearWord(w[1]) then Some(12 * DecimalValue(w[0]))
    else if |w| == 4 && IsNumeral(w[0]) && IsYearWord(w[1]) && IsNumeral(w[2]) && IsMonthWord(w[3])
    then Some(12 * DecimalValue(w[0]) + DecimalValue(w[2]))
    else None
  }

  predicate IsMonthWord(w: string)
  {
    w == "month" || w == "months"
  }

  predicate IsYearWord(w: string)
  {
    w == "year" || w == "years"
  }

  lemma NumeralHasNoSpace(n: nat)
    ensures ' ' !in NatToString(n)
  {
    forall k | 0 <= k < |NatToString(n)| ensures NatToString(n)[k] != ' ' {
      assert IsDigit(NatToString(n)[k]);
    }
  }

  /** The two words of `CountText`: the numeral and the unit word. */
  function UnitWord(n: int, unit: string): string
  {
    unit + (if n != 1 then "s" else "")
  }

  lemma CountTextWords(n: nat, unit: string)
    requires unit == "month" || unit == "year"
    ensures SplitSpaces(CountText(n, unit)) == [NatToString(n), UnitWord(n, unit)]
  {
    var u := UnitWord(n, unit);
    assert CountText(n, unit) == NatToString(n) + " " + u;
    NumeralHasNoSpace(n);
    assert ' ' !in u;
    SplitAtSpace(NatToString(n), u);
    SplitNoSpace(u);
  }

  lemma SplitTwoCounts(y: nat, m: nat)
    ensures SplitSpaces(CountText(y, "year") + " " + CountText(m, "month"))
            == [NatToString(y), UnitWord(y, "year"), NatToString(m), UnitWord(m, "month")]
  {
    var uy := UnitWord(y, "year");
    var b := CountText(m, "month");
    CountTextWords(m, "month");
    NumeralHasNoSpace(y);
    assert ' ' !in uy;
    assert CountText(y, "year") + " " + b == NatToString(y) + " " + (uy + " " + b);
    SplitAtSpace(NatToString(y), uy + " " + b);
    SplitAtSpace(uy, b);
  }

  lemma ParseTwoCounts(y: nat, m: nat)
    ensures ParseDuration(CountText(y, "year") + " " + CountText(m, "month")) == Some(12 * y + m)
  {
    SplitTwoCounts(y, m);
    DecimalValueOfNatToString(y);
    DecimalValueOfNatToString(m);
    var w := [NatToString(y), UnitWord(y, "year"), NatToString(m), UnitWord(m, "month")];
    assert IsNumeral(w[0]) && IsNumeral(w[2]);
    assert IsYearWord(w[1]) && IsMonthWord(w[3]);
    assert ParseWords(w) == Some(12 * y + m);
  }

  lemma ParseOneCount(n: nat, unit: string)
    requires unit == "month" || unit == "year"
    ensures ParseDuration(CountText(n, unit)) == Some(if unit == "year" then 12 * n else n)
  {
    CountTextWords(n, unit);
    DecimalValueOfNatToString(n);
    var u := UnitWord(n, unit);
    var w := SplitSpaces(CountText(n, unit));
    assert w[0] == NatToString(n) && w[1] == u;
    assert IsNumeral(w[0]);
    if unit == "year" {
      assert u[0] == 'y';
      assert !IsMonthWord(u);
      assert IsYearWord(u);
    } else {
      assert IsMonthWord(u);
    }
  }

  /** For a non-negative difference the text states the difference exactly:
      reading it back gives the number of months. */
  lemma DurationTextRoundTrip(months: int)
    requires months >= 0
    ensures ParseDuration(DurationText(months)) == Some(months)
  {
    var years := months / 12;
    var rem := JsRem(months, 12);
    DurationSplit(months);
    assert years >= 0 && years * 12 + rem == months;
    if years == 0 {
      assert DurationText(months) == CountText(rem, "month");
      ParseOneCount(rem, "month");
    } else if rem == 0 {
      assert DurationText(months) == CountText(years, "year");
      ParseOneCount(years, "year");
    } else {
      assert DurationText(months) == CountText(years, "year") + " " + CountText(rem, "month");
      ParseTwoCounts(years, rem);
    }
  }

  /** `calculateDuration` round-trips for every non-negative difference. */
  lemma DurationRoundTrip(start: YearMonth, end: YearMonth, currentlyWorking: bool, today: YearMonth)
    requires MonthsBetween(start, end, currentlyWorking, today) >= 0
    ensures ParseDuration(CalculateDuration(start, end, currentlyWorking, today))
            == Some(MonthsBetween(start, end, currentlyWorking, today))
  {
    DurationTextRoundTrip(MonthsBetween(start, end, currentlyWorking, today));
  }

  /** A zero difference reads "0 months": zero takes the plural. */
  lemma ZeroMonths()
    ensures DurationText(0) == "0 months"
  {
    assert NatToString(0) == "0";
  }

  /** When the end precedes the start by less than a year, floor division
      gives -1 years while the truncating remainder keeps the whole negative
      difference, so the two parts no longer add up: "-1 years -5 months"
      for a difference of -5. */
  lemma NegativeDifferenceParts(months: int)
    requires -12 < months < 0
    ensures months / 12 == -1
    ensures JsRem(months, 12) == months
    ensures (months / 12) * 12 + JsRem(months, 12) == months - 12
  {
  }
}
