/**
 * The two textual forms of a report date in the daily script: the filter
 * text typed into the dashboard (`%d/%m/%Y`) and the text in the marker
 * file name (`%d-%m-%Y`), and the marker file name itself.
 */
module Dates {
  import opened Strings

  datatype Date = Date(day: int, month: int, year: int)

  /** Dates as `datetime` produces them, restricted to four-digit years. */
  predicate Valid(d: Date)
  {
    1 <= d.day <= 31 && 1 <= d.month <= 12 && 1000 <= d.year <= 9999
  }

  /** The dates a calendar gives for day numbers. */
  type CalendarDate = d: Date | Valid(d) witness Date(1, 1, 2000)

  function Digit(n: int): char
    requires 0 <= n <= 9
  {
    ('0' as int + n) as char
  }

  /** Two digits with a leading zero, as `%d` and `%m` print. */
  function Pad2(n: int): string
    requires 0 <= n <= 99
  {
    [Digit(n / 10), Digit(n % 10)]
  }

  /** Four digits, as `%Y` prints a year from 1000 on. */
  function Pad4(n: int): string
    requires 0 <= n <= 9999
  {
    Pad2(n / 100) + Pad2(n % 100)
  }

  function Render(d: Date, sep: char): (r: string)
    requires Valid(d)
    ensures |r| == 10 && r[2] == sep && r[5] == sep
  {
    Pad2(d.day) + [sep] + Pad2(d.month) + [sep] + Pad4(d.year)
  }

  /** `strftime("%d/%m/%Y")`, the date typed into the dashboard and shown in the message. */
  function FilterText(d: Date): string
    requires Valid(d)
  {
    Render(d, '/')
  }

  /** `strftime("%d-%m-%Y")`, the date in the marker file name. */
  function FileText(d: Date): string
    requires Valid(d)
  {
    Render(d, '-')
  }

  /** `enviado_<dd-mm-yyyy>.txt`. */
  function MarkerName(d: Date): string
    requires Valid(d)
  {
    "enviado_" + FileText(d) + ".txt"
  }

  /** The file form is the filter form with every `/` turned into `-`. */
  lemma FileTextFromFilterText(d: Date)
    requires Valid(d)
    ensures FileText(d) == ReplaceChar(FilterText(d), '/', '-')
  {
    var f := FilterText(d);
    var r := ReplaceChar(f, '/', '-');
    forall k | 0 <= k < 10 ensures r[k] == FileText(d)[k] {
      if k != 2 && k != 5 {
        assert '0' <= f[k] <= '9';
      }
    }
  }

  lemma DigitInjective(a: int, b: int)
    requires 0 <= a <= 9 && 0 <= b <= 9 && Digit(a) == Digit(b)
    ensures a == b
  {
  }

  lemma Pad2Injective(a: int, b: int)
    requires 0 <= a <= 99 && 0 <= b <= 99 && Pad2(a) == Pad2(b)
    ensures a == b
  {
    DigitInjective(a / 10, b / 10);
    DigitInjective(a % 10, b % 10);
  }

  lemma Pad4Injective(a: int, b: int)
    requires 0 <= a <= 9999 && 0 <= b <= 9999 && Pad4(a) == Pad4(b)
    ensures a == b
  {
    assert Pad4(a)[..2] == Pad2(a / 100) && Pad4(b)[..2] == Pad2(b / 100);
    assert Pad4(a)[2..] == Pad2(a % 100) && Pad4(b)[2..] == Pad2(b % 100);
    Pad2Injective(a / 100, b / 100);
    Pad2Injective(a % 100, b % 100);
  }

  /** Distinct dates have distinct marker files, so a marker identifies its date. */
  lemma MarkerNameInjective(d1: Date, d2: Date)
    requires Valid(d1) && Valid(d2) && MarkerName(d1) == MarkerName(d2)
    ensures d1 == d2
  {
    var f1, f2 := FileText(d1), FileText(d2);
    assert f1 == MarkerName(d1)[8..18] && f2 == MarkerName(d2)[8..18];
    assert f1[..2] == Pad2(d1.day) && f2[..2] == Pad2(d2.day);
    assert f1[3..5] == Pad2(d1.month) && f2[3..5] == Pad2(d2.month);
    assert f1[6..] == Pad4(d1.year) && f2[6..] == Pad4(d2.year);
    Pad2Injective(d1.day, d2.day);
    Pad2Injective(d1.month, d2.month);
    Pad4Injective(d1.year, d2.year);
  }
}
