/**
 Decimal text: printing integers and reading them back, with the forms Python's int() accepts
 in ASCII (surrounding blanks, a sign, leading zeros, single underscores between digits).
 */
module Decimal {
  import opened Catalogs

  function Digit(d: nat): char
    requires d < 10
  {
    ['0', '1', '2', '3', '4', '5', '6', '7', '8', '9'][d]
  }

  function Value(c: char): Option<nat> {
    if '0' <= c <= '9' then Some((c as int) - ('0' as int)) else None
  }

  function Digits(n: nat): string {
    if n < 10 then [Digit(n)] else Digits(n / 10) + [Digit(n % 10)]
  }

  function Print(n: int): string {
    if n < 0 then "-" + Digits(-n) else Digits(n)
  }

  /** Digits, with single underscores allowed between two of them. */
  function ReadDigits(s: string): Option<int> {
    if s == [] || Value(s[|s| - 1]).None? then None else
    var last := Value(s[|s| - 1]).value;
    if |s| == 1 then Some(last) else
    var before := if s[|s| - 2] == '_' then ReadDigits(s[..|s| - 2]) else ReadDigits(s[..|s| - 1]);
    if before.None? then None else Some(10 * before.value + last)
  }

  predicate Blank(c: char) {
    c in {' ', '\t', '\n', '\r', '\U{0B}', '\U{0C}'}
  }

  function Strip(s: string): string {
    if s != [] && Blank(s[0]) then Strip(s[1..])
    else if s != [] && Blank(s[|s| - 1]) then Strip(s[..|s| - 1])
    else s
  }

  function ReadSigned(s: string): Option<int> {
    if s != [] && s[0] == '-' then
      var n := ReadDigits(s[1..]);
      if n.Some? then Some(-n.value) else None
    else ReadDigits(if s != [] && s[0] == '+' then s[1..] else s)
  }

  function Read(s: string): Option<int> {
    ReadSigned(Strip(s))
  }

  predicate AllDigits(s: string) {
    forall i :: 0 <= i < |s| ==> Value(s[i]).Some?
  }

  lemma DigitValue(d: nat)
    requires d < 10
    ensures Value(Digit(d)) == Some(d)
  {
  }

  lemma {:induction false} DigitsRoundTrip(n: nat)
    ensures AllDigits(Digits(n)) && Digits(n) != [] && ReadDigits(Digits(n)) == Some(n)
  {
    DigitValue(n % 10);
    if n >= 10 {
      DigitsRoundTrip(n / 10);
      var s := Digits(n);
      assert s[..|s| - 1] == Digits(n / 10);
      assert s[|s| - 2] == Digits(n / 10)[|s| - 2];
      assert Value(s[|s| - 2]).Some?;
    }
  }

  /** Reading what was printed gives the number back, so printing is injective. */
  lemma PrintRoundTrip(n: int)
    ensures Read(Print(n)) == Some(n) && Print(n) != []
    ensures forall i :: 0 <= i < |Print(n)| ==> Print(n)[i] == '-' || Value(Print(n)[i]).Some?
  {
    var digits := Digits(if n < 0 then -n else n);
    DigitsRoundTrip(if n < 0 then -n else n);
    NothingToStrip(digits);
    if n < 0 {
      NothingToStrip("-" + digits);
      assert ("-" + digits)[1..] == digits;
    }
  }

  lemma NothingToStrip(s: string)
    requires s != [] && (s[0] == '-' || Value(s[0]).Some?) && Value(s[|s| - 1]).Some?
    ensures Strip(s) == s
  {
  }
}
