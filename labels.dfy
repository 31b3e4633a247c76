/** The strings the invoice handler derives from its inputs: the PDF file
    name, the `'-'` placeholder for absent recipient fields, the e-mail
    subject and the `dd-mm-yyyy` date. */
module Labels {
  import opened JsValues

  const FilePrefix: string := "invoice-"
  const FileSuffix: string := ".pdf"
  /** Stands in the file name for a missing invoice number. */
  const NoNumber: string := "no-number"

  /** `invoice-<arve_nr || 'no-number'>.pdf`. */
  function FileName(arveNr: JsValue): (name: string)
    ensures |name| > |FilePrefix| + |FileSuffix|
    ensures name[..|FilePrefix|] == FilePrefix
    ensures name[|name| - |FileSuffix|..] == FileSuffix
  {
    FilePrefix + OrElse(arveNr, NoNumber) + FileSuffix
  }

  /** The invoice-number part of a file name; the partner of FileName. */
  function NumberPart(name: string): string
    requires |name| >= |FilePrefix| + |FileSuffix|
  {
    name[|FilePrefix|..|name| - |FileSuffix|]
  }

  /** The file name carries the invoice number's text, or "no-number" when
      the number is falsy. */
  lemma FileNameRoundTrip(arveNr: JsValue)
    ensures Truthy(arveNr) ==> NumberPart(FileName(arveNr)) == ToText(arveNr)
    ensures !Truthy(arveNr) ==> NumberPart(FileName(arveNr)) == NoNumber
  {
    var middle := OrElse(arveNr, NoNumber);
    assert FileName(arveNr) == FilePrefix + middle + FileSuffix;
    assert NumberPart(FileName(arveNr)) == middle;
  }

  /** Two different numeric invoice numbers never share a file name. */
  lemma DistinctNumbersDistinctFiles(a: int, b: int)
    requires a != 0 && b != 0 && a != b
    ensures FileName(Num(a)) != FileName(Num(b))
  {
    FileNameRoundTrip(Num(a));
    FileNameRoundTrip(Num(b));
    if IntToString(a) == IntToString(b) {
      IntToStringInjective(a, b);
    }
  }

  /** `${field || '-'}`: the text shown for an optional recipient field. */
  function Placeholder(field: JsValue): (text: string)
    ensures text != ""
    ensures !Truthy(field) ==> text == "-"
    ensures Truthy(field) ==> text == ToText(field)
  {
    OrElse(field, "-")
  }

  /** The e-mail subject `Arve <arve_nr || '-'>`. */
  function Subject(arveNr: JsValue): (subject: string)
    ensures |subject| > 5 && subject[..5] == "Arve "
    ensures subject[5..] == Placeholder(arveNr)
  {
    "Arve " + Placeholder(arveNr)
  }

  function Repeat(c: char, n: nat): (s: string)
    ensures |s| == n && forall i :: 0 <= i < n ==> s[i] == c
  {
    if n == 0 then [] else [c] + Repeat(c, n - 1)
  }

  /** `s.padStart(width, fill)` with a one-character fill: `fill` is repeated
      in front of `s` up to `width` characters; a string already that long is
      left alone. */
  function PadStart(s: string, width: nat, fill: char): (r: string)
    ensures |r| == if |s| < width then width else |s|
    ensures r[|r| - |s|..] == s
    ensures forall i :: 0 <= i < |r| - |s| ==> r[i] == fill
  {
    if |s| < width then Repeat(fill, width - |s|) + s else s
  }

  /** A day or month number as the date shows it: at least two characters,
      a single digit getting a leading zero. */
  function TwoDigits(n: int): (s: string)
    ensures |s| >= 2
    ensures 0 <= n < 10 ==> s == ['0', DigitChar(n)]
    ensures 10 <= n < 100 ==> |s| == 2 && s == IntToString(n)
  {
    PadStart(IntToString(n), 2, '0')
  }

  /** The invoice date `dd-mm-yyyy`: for a day and month below 100, the
      dashes sit at positions 2 and 5 and the year's numeral follows. */
  function DateString(day: int, month: int, year: int): (s: string)
    ensures 0 <= day < 100 && 0 <= month < 100 ==>
      |s| == 6 + |IntToString(year)| && s[2] == '-' && s[5] == '-' && s[6..] == IntToString(year)
  {
    var d, m, y := TwoDigits(day), TwoDigits(month), IntToString(year);
    SplitDate(d, m, y);
    d + "-" + m + "-" + y
  }

  /** A zero-padded single digit reads back as the digit. */
  lemma PaddedDigit(n: nat)
    requires n < 10
    ensures AllDigits(['0', DigitChar(n)]) && ParseDigits(['0', DigitChar(n)]) == n
  {
    var s := ['0', DigitChar(n)];
    assert s[..1] == ['0'];
    assert ['0'][..0] == [];
  }

  lemma TwoDigitsOf(n: int)
    requires 0 <= n < 100
    ensures |TwoDigits(n)| == 2 && AllDigits(TwoDigits(n)) && ParseDigits(TwoDigits(n)) == n
  {
    if n < 10 {
      PaddedDigit(n);
    } else {
      ParseNatToString(n);
    }
  }

  /** Where the three fields of a date with two-character day and month sit. */
  lemma SplitDate(d: string, m: string, y: string)
    ensures var s := d + "-" + m + "-" + y;
      |d| == 2 && |m| == 2 ==>
      |s| == 6 + |y| && s[2] == '-' && s[5] == '-' && s[..2] == d && s[3..5] == m && s[6..] == y
  {
  }

  /** The date string splits back into the day, month and year it was made
      from: two digits, a dash, two digits, a dash, the year's numeral. */
  lemma DateStringRoundTrip(day: int, month: int, year: int)
    requires 0 <= day < 100 && 0 <= month < 100
    ensures var s := DateString(day, month, year);
      && |s| > 6 && s[2] == '-' && s[5] == '-'
      && AllDigits(s[..2]) && ParseDigits(s[..2]) == day
      && AllDigits(s[3..5]) && ParseDigits(s[3..5]) == month
      && IsNumeral(s[6..]) && ParseInt(s[6..]) == year
  {
    TwoDigitsOf(day);
    TwoDigitsOf(month);
    IntToStringRoundTrip(year);
    SplitDate(TwoDigits(day), TwoDigits(month), IntToString(year));
  }
}
