/**
 * The display label of a course, "Subject Number: Title", and the decimal
 * rendering of the course number it contains. A parser for labels is the
 * partner that shows the label loses nothing for subjects without a space.
 */
module Labels {
  import opened Wrappers

  predicate IsDigit(ch: char)
  {
    '0' <= ch <= '9'
  }

  predicate AllDigits(s: string)
  {
    forall i :: 0 <= i < |s| ==> IsDigit(s[i])
  }

  function DigitChar(d: nat): (ch: char)
    requires d < 10
    ensures IsDigit(ch) && ch as int - '0' as int == d
  {
    ('0' as int + d) as char
  }

  function DigitValue(ch: char): nat
    requires IsDigit(ch)
  {
    ch as int - '0' as int
  }

  /** Decimal digits of n, most significant first, without leading zeros. */
  function NatToString(n: nat): (s: string)
    ensures |s| >= 1 && AllDigits(s)
    ensures |s| > 1 ==> s[0] != '0'
  {
    if n < 10 then [DigitChar(n)] else NatToString(n / 10) + [DigitChar(n % 10)]
  }

  /** Python's `str` of an integer: a minus sign before the digits of a negative number. */
  function IntToString(i: int): (s: string)
    ensures |s| >= 1
    ensures i < 0 <==> s[0] == '-'
  {
    if i < 0 then "-" + NatToString(-i) else NatToString(i)
  }

  /** The `Course` column: `Subject + ' ' + str(Number) + ": " + Course Title`. */
  function Label(subject: string, number: int, title: string): string
  {
    subject + " " + IntToString(number) + ": " + title
  }

  /** Value of a string of decimal digits. */
  function ParseNat(s: string): nat
    requires AllDigits(s)
  {
    if s == [] then 0 else 10 * ParseNat(s[..|s| - 1]) + DigitValue(s[|s| - 1])
  }

  /** Reads back what `IntToString` writes; any other text is rejected. */
  function ParseInt(s: string): Option<int>
  {
    if |s| >= 2 && s[0] == '-' && AllDigits(s[1..]) then Some(0 - ParseNat(s[1..]) as int)
    else if |s| >= 1 && AllDigits(s) then Some(ParseNat(s))
    else None
  }

  /** Position of the first c in s, or |s| when there is none. */
  function IndexOf(s: string, c: char): (i: nat)
    ensures i <= |s|
    ensures i < |s| ==> s[i] == c
    ensures forall j :: 0 <= j < i ==> s[j] != c
  {
    if s == [] then 0 else if s[0] == c then 0 else 1 + IndexOf(s[1..], c)
  }

  /** Splits a label at its first space and at the first colon after it. */
  function ParseLabel(s: string): Option<(string, int, string)>
  {
    var i := IndexOf(s, ' ');
    if i == |s| then None
    else
      var rest := s[i + 1..];
      var j := IndexOf(rest, ':');
      if j + 1 >= |rest| || rest[j + 1] != ' ' then None
      else
        match ParseInt(rest[..j])
        case None => None
        case Some(n) => Some((s[..i], n, rest[j + 2..]))
  }

  lemma {:induction false} NatRoundTrip(n: nat)
    ensures ParseNat(NatToString(n)) == n
  {
    var s := NatToString(n);
    if n >= 10 {
      NatRoundTrip(n / 10);
      assert s[..|s| - 1] == NatToString(n / 10);
    }
  }

  lemma IntRoundTrip(i: int)
    ensures ParseInt(IntToString(i)) == Some(i)
  {
    var s := IntToString(i);
    if i < 0 {
      var d := NatToString(-i);
      NatRoundTrip(-i);
      assert s == "-" + d;
      assert s[1..] == d;
    } else {
      NatRoundTrip(i);
      assert IsDigit(s[0]);
    }
  }

  /** Splitting a + [c] + b at its first c, when a has none, gives back a and b. */
  lemma SplitAtFirst(a: string, c: char, b: string)
    requires c !in a
    ensures var s := a + [c] + b;
            IndexOf(s, c) == |a| && s[..|a|] == a && s[|a| + 1..] == b
  {
    var s := a + [c] + b;
    assert s[|a|] == c;
    assert forall j :: 0 <= j < |a| ==> s[j] == a[j];
    assert s[..|a|] == a;
    assert s[|a| + 1..] == b;
  }

  lemma NoColonInNumber(i: int)
    ensures ':' !in IntToString(i)
  {
    var s := IntToString(i);
    if i < 0 {
      var d := NatToString(-i);
      assert s == "-" + d;
      assert forall k :: 1 <= k < |s| ==> s[k] == d[k - 1];
    }
  }

  /**
   * The label determines subject, number and title whenever the subject has
   * no space (subject codes such as "CS" or "AAS" never do).
   */
  lemma LabelRoundTrip(subject: string, number: int, title: string)
    requires ' ' !in subject
    ensures ParseLabel(Label(subject, number, title)) == Some((subject, number, title))
  {
    var digits := IntToString(number);
    var tail := [' '] + title;
    var rest := digits + [':'] + tail;
    var s := Label(subject, number, title);
    assert s == subject + [' '] + rest;
    SplitAtFirst(subject, ' ', rest);
    NoColonInNumber(number);
    SplitAtFirst(digits, ':', tail);
    assert rest[|digits| + 1] == ' ';
    assert rest[|digits| + 2..] == title;
    IntRoundTrip(number);
  }
}
