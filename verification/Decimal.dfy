/** Server ids travel as decimal text, printed by `std::to_string` and read back by
    `std::stoi`. */
module Decimal {
  import opened Bytes

  predicate InIntRange(i: int) {
    -0x8000_0000 <= i < 0x8000_0000
  }

  function Digits(n: nat): (d: Text)
    ensures d != [] && forall b <- d :: IsDigit(b)
  {
    if n < 10 then [(48 + n) as Byte] else Digits(n / 10) + [(48 + n % 10) as Byte]
  }

  function ToString(i: int): Text {
    if i < 0 then [MINUS] + Digits(-i) else Digits(i)
  }

  const MINUS: Byte := 45
  const PLUS: Byte := 43

  predicate IsDigit(b: Byte) {
    48 <= b <= 57
  }

  /** The blanks `std::stoi` skips. */
  predicate IsSpace(b: Byte) {
    b == 32 || 9 <= b <= 13
  }

  function SkipSpace(t: Text): Text {
    if t != [] && IsSpace(t[0]) then SkipSpace(t[1..]) else t
  }

  /** The longest run of digits at the front. */
  function LeadingDigits(t: Text): (d: Text)
    ensures forall b <- d :: IsDigit(b)
  {
    if t != [] && IsDigit(t[0]) then [t[0]] + LeadingDigits(t[1..]) else []
  }

  function ValueOf(d: Text): nat
    requires forall b <- d :: IsDigit(b)
  {
    if d == [] then 0
    else
      assert IsDigit(d[|d| - 1]);
      ValueOf(d[..|d| - 1]) * 10 + (d[|d| - 1] as int - 48)
  }

  /** `std::stoi`; no result stands for either of its exceptions. What follows the
      digits is ignored. */
  function Stoi(t: Text): Option<int> {
    var s := SkipSpace(t);
    var negative := s != [] && s[0] == MINUS;
    var d := LeadingDigits(if s != [] && (s[0] == MINUS || s[0] == PLUS) then s[1..] else s);
    var n: int := ValueOf(d);
    var v := if negative then -n else n;
    if d == [] || !InIntRange(v) then None else Some(v)
  }

  lemma {:induction false} ValueOfDigits(n: nat)
    ensures ValueOf(Digits(n)) == n
  {
    if n < 10 {
      assert Digits(n)[..0] == [];
    } else {
      ValueOfDigits(n / 10);
      assert Digits(n)[..|Digits(n)| - 1] == Digits(n / 10);
    }
  }

  lemma {:induction false} LeadingDigitsOfDigits(d: Text)
    requires forall b <- d :: IsDigit(b)
    ensures LeadingDigits(d) == d
  {
    if d != [] {
      LeadingDigitsOfDigits(d[1..]);
    }
  }

  /** A printed id is read back, and a number that is not an `int` is refused. */
  lemma StoiToString(i: int)
    ensures Stoi(ToString(i)) == if InIntRange(i) then Some(i) else None
  {
    var n: nat := if i < 0 then -i else i;
    var d := Digits(n);
    assert IsDigit(d[0]);
    LeadingDigitsOfDigits(d);
    ValueOfDigits(n);
    assert ToString(i) == if i < 0 then [MINUS] + d else d;
    assert SkipSpace(ToString(i)) == ToString(i);
  }

  lemma {:induction false} DigitsThenMore(d: Text, rest: Text)
    requires (forall b <- d :: IsDigit(b)) && (rest == [] || !IsDigit(rest[0]))
    ensures LeadingDigits(d + rest) == d
  {
    if d == [] {
      assert d + rest == rest;
    } else {
      assert (d + rest)[1..] == d[1..] + rest;
      DigitsThenMore(d[1..], rest);
    }
  }

  lemma {:induction false} SpaceThenMore(blank: Text, t: Text)
    requires (forall b <- blank :: IsSpace(b)) && (t == [] || !IsSpace(t[0]))
    ensures SkipSpace(blank + t) == t
  {
    if blank == [] {
      assert blank + t == t;
    } else {
      assert (blank + t)[1..] == blank[1..] + t;
      SpaceThenMore(blank[1..], t);
    }
  }

  /** What follows a printed number makes no difference unless it is a digit. */
  lemma StoiOfNumber(i: int, rest: Text)
    requires rest == [] || !IsDigit(rest[0])
    ensures Stoi(ToString(i) + rest) == if InIntRange(i) then Some(i) else None
    ensures ToString(i) != [] && !IsSpace(ToString(i)[0])
  {
    var n: nat := if i < 0 then -i else i;
    StoiOfDigits(n, rest);
    StoiOfText(Digits(n), rest, n);
  }

  /** With the digits in hand. */
  lemma StoiOfText(d: Text, rest: Text, n: nat)
    requires d != [] && IsDigit(d[0]) && LeadingDigits(d + rest) == d && ValueOf(d) == n
    ensures Stoi(d + rest) == if InIntRange(n) then Some(n) else None
    ensures var i: int := n; Stoi([MINUS] + d + rest) == if InIntRange(-i) then Some(-i) else None
  {
    assert (d + rest)[0] == d[0];
    StoiOfDigit(d + rest);
    StoiOfMinus(d + rest);
    assert [MINUS] + d + rest == [MINUS] + (d + rest);
  }

  lemma StoiOfMinus(t: Text)
    requires t != [] && IsDigit(t[0])
    ensures var i: int := ValueOf(LeadingDigits(t)); Stoi([MINUS] + t) == if InIntRange(-i) then Some(-i) else None
  {
    assert SkipSpace([MINUS] + t) == [MINUS] + t;
    assert ([MINUS] + t)[1..] == t;
    assert LeadingDigits(t) != [];
  }

  lemma StoiOfDigit(t: Text)
    requires t != [] && IsDigit(t[0])
    ensures var v: int := ValueOf(LeadingDigits(t)); Stoi(t) == if InIntRange(v) then Some(v) else None
  {
    assert SkipSpace(t) == t;
    assert LeadingDigits(t) != [];
  }

  lemma StoiOfDigits(n: nat, rest: Text)
    requires rest == [] || !IsDigit(rest[0])
    ensures IsDigit((Digits(n) + rest)[0]) && IsDigit(Digits(n)[0])
    ensures LeadingDigits(Digits(n) + rest) == Digits(n) && ValueOf(Digits(n)) == n
  {
    assert IsDigit(Digits(n)[0]);
    ValueOfDigits(n);
    DigitsThenMore(Digits(n), rest);
  }

  /** White space before a number and anything but a digit behind it are passed over; a
      number fits if and only if 32 bits hold it. */
  lemma StoiPassesOver(blank: Text, i: int, rest: Text)
    requires forall b <- blank :: b == 32 || 9 <= b <= 13
    requires rest == [] || !(48 <= rest[0] <= 57)
    ensures Stoi(blank + ToString(i) + rest) == if -2147483648 <= i <= 2147483647 then Some(i) else None
  {
    var t := ToString(i) + rest;
    StoiOfNumber(i, rest);
    assert blank + ToString(i) + rest == blank + t && t[0] == ToString(i)[0];
    StoiSkipsSpace(blank, t);
  }

  lemma StoiSkipsSpace(blank: Text, t: Text)
    requires (forall b <- blank :: b == 32 || 9 <= b <= 13) && (t == [] || !IsSpace(t[0]))
    ensures Stoi(blank + t) == Stoi(t)
  {
    forall b | b in blank ensures IsSpace(b) {
    }
    SpaceThenMore(blank, t);
    SpaceThenMore([], t);
    assert [] + t == t;
  }

  /** A text without a number where one is due is refused. */
  lemma StoiRefuses(blank: Text, rest: Text)
    requires forall b <- blank :: b == 32 || 9 <= b <= 13
    requires rest == [] || !(48 <= rest[0] <= 57 || rest[0] in {43, 45, 32} || 9 <= rest[0] <= 13)
    ensures Stoi(blank + rest) == None
  {
    StoiSkipsSpace(blank, rest);
  }

  lemma ToStringNulFree(i: int)
    ensures NulFree(ToString(i))
  {
    var d := Digits(if i < 0 then -i else i);
    assert forall b <- d :: IsDigit(b);
  }
}
