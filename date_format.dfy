/** The two date patterns the table components pass to date-fns `format`:
    "dd/MM/yyyy" for exports and "dd MMM yyyy" (with the Spanish month
    abbreviations) for the searchable date column. Calendar fields are read
    in the one fixed zone of the calendar model. */
module DateFormat {
  import opened Common
  import opened Calendar
  import opened Text

  function Zeros(k: nat): (r: string)
    ensures |r| == k
    ensures forall i :: 0 <= i < k ==> r[i] == '0'
  {
    seq(k, i => '0')
  }

  /** date-fns `addLeadingZeros` on a non-negative number: its decimal digits,
      preceded by as many zeros as it takes to reach `width` characters. */
  function Padded(n: nat, width: nat): (r: string)
    ensures |r| >= width && |r| >= 1
    ensures forall i :: 0 <= i < |r| ==> IsDigit(r[i])
    ensures |NatToString(n)| >= width ==> r == NatToString(n)
  {
    var digits := NatToString(n);
    if |digits| >= width then digits else Zeros(width - |digits|) + digits
  }

  /** A run of zeros reads as zero. */
  lemma {:induction false} ParseZeros(z: string)
    requires forall i :: 0 <= i < |z| ==> z[i] == '0'
    ensures ParseNat(z) == 0
  {
    if z != [] {
      ParseZeros(z[..|z| - 1]);
    }
  }

  /** Leading zeros do not change the number a digit string reads as. */
  lemma {:induction false} ParseLeadingZeros(z: string, s: string)
    requires forall i :: 0 <= i < |z| ==> z[i] == '0'
    requires forall i :: 0 <= i < |s| ==> IsDigit(s[i])
    ensures ParseNat(z + s) == ParseNat(s)
  {
    if s == [] {
      assert z + s == z;
      ParseZeros(z);
    } else {
      var front := s[..|s| - 1];
      assert (z + s)[..|z + s| - 1] == z + front;
      assert (z + s)[|z + s| - 1] == s[|s| - 1];
      ParseLeadingZeros(z, front);
    }
  }

  /** A padded number reads back as the number. */
  lemma PaddedReadsBack(n: nat, width: nat)
    ensures ParseNat(Padded(n, width)) == n
  {
    var digits := NatToString(n);
    ParseNatToString(n);
    if |digits| < width {
      ParseLeadingZeros(Zeros(width - |digits|), digits);
    }
  }

  /** The `yyyy` field: years up to 1 BC count backwards from 1, as date-fns
      writes the year of era. */
  function EraYear(year: int): (y: nat)
    ensures y >= 1
    ensures year > 0 ==> y == year
  {
    if year > 0 then year else 1 - year
  }

  /** Calendar fields as `CivilOf` produces them. */
  predicate Proper(c: Civil)
  {
    1 <= c.month <= 12 && 1 <= c.day <= 31
  }

  /** `format(date, "dd/MM/yyyy")` on the date's calendar fields. */
  function SlashDate(c: Civil): (r: string)
    requires Proper(c)
    ensures forall i :: 0 <= i < |r| ==> IsDigit(r[i]) || r[i] == '/'
  {
    var parts := [Padded(c.day, 2), Padded(c.month, 2), Padded(EraYear(c.year), 4)];
    JoinDigits(parts, '/');
    Join(parts, '/')
  }

  /** `format(date, "dd/MM/yyyy")`. */
  function ShortDate(t: Instant): string
  {
    SlashDate(CivilOf(t))
  }

  /** An exported date holds no comma and no line break, so it is safe in an
      unquoted CSV field. */
  lemma ShortDateUnquoted(t: Instant)
    ensures ',' !in ShortDate(t) && '\n' !in ShortDate(t)
  {
    var r := ShortDate(t);
    assert forall i :: 0 <= i < |r| ==> r[i] != ',' && r[i] != '\n';
  }

  /** Joining digit strings with a separator leaves only digits and separators. */
  lemma {:induction false} JoinDigits(parts: seq<string>, sep: char)
    requires forall k, i :: 0 <= k < |parts| && 0 <= i < |parts[k]| ==> IsDigit(parts[k][i])
    ensures forall i :: 0 <= i < |Join(parts, sep)| ==> IsDigit(Join(parts, sep)[i]) || Join(parts, sep)[i] == sep
  {
    if |parts| > 1 {
      JoinDigits(parts[1..], sep);
    }
  }

  predicate AllDigits(s: string)
  {
    forall i :: 0 <= i < |s| ==> IsDigit(s[i])
  }

  /** Reads a "dd/MM/yyyy" text back as day, month and year of era. */
  function ReadShortDate(s: string): (r: Option<(nat, nat, nat)>)
    ensures r.Some? ==> |Split(s, '/')| == 3
  {
    var p := Split(s, '/');
    if |p| == 3 && AllDigits(p[0]) && AllDigits(p[1]) && AllDigits(p[2])
    then Some((ParseNat(p[0]), ParseNat(p[1]), ParseNat(p[2])))
    else None
  }

  /** Round trip: an exported date reads back as the calendar day it was
      written from. */
  lemma SlashDateReadsBack(c: Civil)
    requires Proper(c)
    ensures ReadShortDate(SlashDate(c)) == Some((c.day as nat, c.month as nat, EraYear(c.year)))
  {
    var parts := [Padded(c.day, 2), Padded(c.month, 2), Padded(EraYear(c.year), 4)];
    forall k | 0 <= k < |parts|
      ensures '/' !in parts[k]
    {
      assert forall i :: 0 <= i < |parts[k]| ==> IsDigit(parts[k][i]);
    }
    SplitJoin(parts, '/');
    PaddedReadsBack(c.day, 2);
    PaddedReadsBack(c.month, 2);
    PaddedReadsBack(EraYear(c.year), 4);
  }

  /** Twelve month abbreviations, January first, as a date-fns locale supplies them. */
  type MonthNames = names: seq<string> | |names| == 12 witness seq(12, i => "")

  /** `format(date, "dd MMM yyyy", { locale })` on the date's calendar fields. */
  function SpelledDate(c: Civil, months: MonthNames): string
    requires Proper(c)
  {
    Padded(c.day, 2) + " " + months[c.month - 1] + " " + Padded(EraYear(c.year), 4)
  }

  /** `format(date, "dd MMM yyyy", { locale })`. */
  function LongDate(t: Instant, months: MonthNames): string
  {
    SpelledDate(CivilOf(t), months)
  }

  /** Lower-casing a concatenation lower-cases each part. */
  lemma LowerAppend(a: string, b: string)
    ensures Lower(a + b) == Lower(a) + Lower(b)
  {
  }

  /** Lower-casing leaves digits alone. */
  lemma LowerDigits(s: string)
    requires forall i :: 0 <= i < |s| ==> IsDigit(s[i])
    ensures Lower(s) == s
  {
  }

  /** Typing a row's four-digit year into the lower-cased date column matches the row. */
  lemma YearFindsDate(c: Civil, months: MonthNames)
    requires Proper(c)
    ensures Contains(Lower(SpelledDate(c, months)), Padded(EraYear(c.year), 4))
  {
    var front := Padded(c.day, 2) + " " + months[c.month - 1] + " ";
    var year := Padded(EraYear(c.year), 4);
    assert SpelledDate(c, months) == front + year;
    LowerAppend(front, year);
    LowerDigits(year);
    var low := Lower(SpelledDate(c, months));
    assert low[|front|..] == year;
    ContainsAt(low, |front|, year);
  }
}
