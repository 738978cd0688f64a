/** The string handling the protocols rely on: strings.SplitN(s, sep, 2) and decimal numbers. */
module Text {
  import opened Bytes

  /** strings.SplitN(s, sep, 2): None when the separator does not occur. */
  function SplitFirst(s: string, sep: char): (r: Option<(string, string)>)
    ensures r.None? <==> sep !in s
    ensures r.Some? ==> sep !in r.value.0 && s == r.value.0 + [sep] + r.value.1
  {
    if s == [] then None
    else if s[0] == sep then
      assert s == [] + [sep] + s[1..];
      Some(([], s[1..]))
    else
      match SplitFirst(s[1..], sep)
      case None => None
      case Some((a, b)) =>
        assert s == [s[0]] + s[1..] == ([s[0]] + a) + [sep] + b;
        Some(([s[0]] + a, b))
  }

  /** Where a string splits is fixed by its first separator. */
  lemma SplitUnique(a: string, b: string, c: string, d: string, sep: char)
    requires sep !in a && sep !in c && a + [sep] + b == c + [sep] + d
    ensures a == c && b == d
  {
    var s := a + [sep] + b;
    assert s[|a|] == sep && s[|c|] == sep;
    assert a == s[..|a|] == c;
    assert b == s[|a| + 1..] == d;
  }

  /** Splitting undoes joining exactly when the first part does not contain the separator. */
  lemma SplitJoin(a: string, b: string, sep: char)
    ensures SplitFirst(a + [sep] + b, sep) == Some((a, b)) <==> sep !in a
  {
    var s := a + [sep] + b;
    assert s[|a|] == sep;
    if sep !in a {
      var (c, d) := SplitFirst(s, sep).value;
      SplitUnique(a, b, c, d, sep);
    }
  }

  function Digit(n: nat): char
    requires n < 10
  {
    "0123456789"[n]
  }

  function DigitValue(c: char): Option<nat> {
    if '0' <= c <= '9' then Some((c as int) - ('0' as int)) else None
  }

  /** fmt's %d of a non-negative number. */
  function Decimal(n: nat): (s: string)
    ensures s != []
  {
    if n < 10 then [Digit(n)] else Decimal(n / 10) + [Digit(n % 10)]
  }

  /** The digits of a string read as one number; None when some character is not a digit. */
  function ReadDigits(s: string): Option<nat> {
    if s == [] then Some(0)
    else
      match (ReadDigits(s[..|s| - 1]), DigitValue(s[|s| - 1]))
      case (Some(m), Some(d)) => Some(10 * m + d)
      case _ => None
  }

  const UINT64: nat := 0x1_0000_0000_0000_0000

  /** strconv.ParseUint(s, 10, 64). */
  function ParseUint(s: string): Option<nat> {
    if s == [] then None
    else
      match ReadDigits(s)
      case Some(n) => if n < UINT64 then Some(n) else None
      case None => None
  }

  lemma DigitReads(n: nat)
    requires n < 10
    ensures DigitValue(Digit(n)) == Some(n)
  {
  }

  lemma {:induction false} DecimalReads(n: nat)
    ensures ReadDigits(Decimal(n)) == Some(n)
  {
    hide Digit, DigitValue;
    var s := Decimal(n);
    DigitReads(n % 10);
    if n < 10 {
      assert n % 10 == n;
      assert s[..0] == [];
      assert ReadDigits(s[..|s| - 1]) == Some(0);
    } else {
      DecimalReads(n / 10);
      assert s[..|s| - 1] == Decimal(n / 10);
    }
  }

  /** Printing and parsing an identifier are inverse on exactly the 64-bit range. */
  lemma PrintParse(n: nat)
    ensures ParseUint(Decimal(n)) == if n < UINT64 then Some(n) else None
  {
    DecimalReads(n);
  }

  /** A string with a character that is no digit is no number. */
  lemma {:induction false} NotDigits(s: string, c: char)
    requires c in s && DigitValue(c).None?
    ensures ReadDigits(s) == None
  {
    var last := |s| - 1;
    assert s == s[..last] + [s[last]];
    if s[last] != c {
      NotDigits(s[..last], c);
    }
  }
}
