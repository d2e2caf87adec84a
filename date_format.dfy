/**
 * The calendar date written with the Go layout "2006-01-02": the year padded
 * to at least four digits, month and day padded to two, joined by '-'. The
 * emitter takes the UTC date of the moment of the call as a value of `Date`
 * instead of reading the clock.
 */
module DateFormat {
  import opened Wrappers
  import opened Text
  import opened Decimal

  datatype Date = Date(year: nat, month: nat, day: nat)

  /** The ranges a calendar date's month and day take. */
  predicate ValidDate(d: Date) {
    1 <= d.month <= 12 && 1 <= d.day <= 31
  }

  /** The date in `YYYY-MM-DD` form. */
  function DateSegment(d: Date): string {
    Padded(d.year, 4) + "-" + Padded(d.month, 2) + "-" + Padded(d.day, 2)
  }

  /** Reads a date segment back: the year up to the first '-', then `MM-DD`. */
  function ParseDate(s: string): Option<Date> {
    var i := IndexOf(s, '-');
    if i == |s| then None
    else
      var year, rest := s[..i], s[i + 1..];
      if |rest| == 5 && rest[2] == '-' && AllDigits(year) && AllDigits(rest[..2]) && AllDigits(rest[3..])
      then Some(Date(Value(year), Value(rest[..2]), Value(rest[3..])))
      else None
  }

  /** The segment determines the date: reading it back gives the date again. */
  lemma DateSegmentRoundTrip(d: Date)
    requires ValidDate(d)
    ensures ParseDate(DateSegment(d)) == Some(d)
  {
    var y, m, dd := Padded(d.year, 4), Padded(d.month, 2), Padded(d.day, 2);
    var s := DateSegment(d);
    PaddedLength(d.month, 2);
    PaddedLength(d.day, 2);
    assert '-' !in y by { assert !IsDigit('-'); }
    assert s == y + ['-'] + (m + "-" + dd);
    IndexOfAfter(y, '-', m + "-" + dd);
    var rest := s[|y| + 1..];
    assert s[..|y|] == y;
    assert rest == m + "-" + dd;
    assert rest[..2] == m;
    assert rest[3..] == dd;
    ValueOfPadded(d.year, 4);
    ValueOfPadded(d.month, 2);
    ValueOfPadded(d.day, 2);
  }

  /** Two dates give the same segment only if they are the same date. */
  lemma DateSegmentInjective(d1: Date, d2: Date)
    requires ValidDate(d1) && ValidDate(d2)
    requires DateSegment(d1) == DateSegment(d2)
    ensures d1 == d2
  {
    DateSegmentRoundTrip(d1);
    DateSegmentRoundTrip(d2);
  }

  /** For a four-digit year: ten characters, '-' at indices 4 and 7, digits elsewhere. */
  lemma DateSegmentShape(d: Date)
    requires ValidDate(d) && d.year < 10000
    ensures var s := DateSegment(d);
      && |s| == 10 && s[4] == '-' && s[7] == '-'
      && (forall i :: 0 <= i < 10 && i != 4 && i != 7 ==> IsDigit(s[i]))
  {
    assert Pow10(4) == 10000 by {
      assert Pow10(2) == 100;
    }
    PaddedLength(d.year, 4);
    PaddedLength(d.month, 2);
    PaddedLength(d.day, 2);
    var y, m, dd := Padded(d.year, 4), Padded(d.month, 2), Padded(d.day, 2);
    var s := DateSegment(d);
    forall i | 0 <= i < 10 && i != 4 && i != 7 ensures IsDigit(s[i]) {
      if i < 4 {
        assert s[i] == y[i];
      } else if i < 7 {
        assert s[i] == m[i - 5];
      } else {
        assert s[i] == dd[i - 8];
      }
    }
  }

  /** A date segment is made of digits and '-' only; in particular it has no '/'. */
  lemma DateSegmentChars(d: Date)
    ensures forall i :: 0 <= i < |DateSegment(d)| ==> IsDigit(DateSegment(d)[i]) || DateSegment(d)[i] == '-'
    ensures '/' !in DateSegment(d)
  {
  }

  lemma DateSegmentExample()
    ensures DateSegment(Date(2024, 3, 11)) == "2024-03-11"
  {
  }
}
