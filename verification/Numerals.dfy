/** Decimal text: how the planner prints numbers, and how formatted stream
    extraction reads them back. */
module Numerals {
  import opened Results

  const TWO_64: nat := 0x1_0000_0000_0000_0000
  const TWO_32: nat := 0x1_0000_0000

  predicate IsU64(n: nat) {
    n < 0x1_0000_0000_0000_0000
  }

  predicate IsU32(n: nat) {
    n < 0x1_0000_0000
  }

  predicate IsSpace(c: char) {
    c == ' ' || c == '\t' || c == '\n' || c == '\r' || c == 11 as char || c == 12 as char
  }

  predicate IsDigit(c: char) {
    '0' <= c <= '9'
  }

  function DigitOf(d: nat): (c: char)
    requires d < 10
    ensures IsDigit(c) && ValueOf(c) == d
  {
    '0' + d as char
  }

  function ValueOf(c: char): (d: nat)
    requires IsDigit(c)
    ensures d < 10
  {
    c as nat - '0' as nat
  }

  // ----- Printing

  function Decimal(n: nat): (s: string)
    ensures s != "" && forall c :: c in s ==> IsDigit(c)
  {
    if n < 10 then [DigitOf(n)] else Decimal(n / 10) + [DigitOf(n % 10)]
  }

  // ----- Reading

  function Number(digits: string): nat
    requires forall c :: c in digits ==> IsDigit(c)
  {
    if digits == "" then 0
    else 10 * Number(digits[..|digits| - 1]) + ValueOf(digits[|digits| - 1])
  }

  function CountSpaces(s: string): (n: nat)
    ensures n <= |s| && forall i :: 0 <= i < n ==> IsSpace(s[i])
    ensures n < |s| ==> !IsSpace(s[n])
  {
    if s == "" || !IsSpace(s[0]) then 0 else 1 + CountSpaces(s[1..])
  }

  function CountDigits(s: string): (n: nat)
    ensures n <= |s| && forall i :: 0 <= i < n ==> IsDigit(s[i])
    ensures n < |s| ==> !IsDigit(s[n])
  {
    if s == "" || !IsDigit(s[0]) then 0 else 1 + CountDigits(s[1..])
  }

  function CountVisible(s: string): (n: nat)
    ensures n <= |s| && forall i :: 0 <= i < n ==> !IsSpace(s[i])
    ensures n < |s| ==> IsSpace(s[n])
  {
    if s == "" || IsSpace(s[0]) then 0 else 1 + CountVisible(s[1..])
  }

  function Trim(s: string): string {
    s[CountSpaces(s)..]
  }

  predicate Blank(s: string) {
    forall i :: 0 <= i < |s| ==> IsSpace(s[i])
  }

  lemma TrimBlank(s: string)
    ensures Trim(s) == "" <==> Blank(s)
  {
  }

  /** `stream >> text`: fails at the end of the text. */
  function ReadWord(s: string): Option<(string, string)> {
    var t := Trim(s);
    var n := CountVisible(t);
    if n == 0 then None else Some((t[..n], t[n..]))
  }

  /** `stream >> number` into an unsigned type below `limit`: an optional sign, then
      digits; too large fails, and a minus sign wraps around. */
  function ReadNumber(s: string, limit: nat): Option<(nat, string)> {
    var t := Trim(s);
    var negative := t != "" && t[0] == '-';
    var u := if negative || (t != "" && t[0] == '+') then t[1..] else t;
    var n := CountDigits(u);
    if n == 0 then None
    else
      var value := Number(u[..n]);
      if value >= limit then None
      else Some((if negative && value > 0 then limit - value else value, u[n..]))
  }

  function ReadNumbers(s: string, limits: seq<nat>): (r: Option<(seq<nat>, string)>)
    ensures r.Some? ==> |r.value.0| == |limits|
    decreases |limits|
  {
    if limits == [] then Some(([], s))
    else
      var first := ReadNumber(s, limits[0]);
      if first.None? then None
      else
        var rest := ReadNumbers(first.value.1, limits[1..]);
        if rest.None? then None else Some(([first.value.0] + rest.value.0, rest.value.1))
  }

  // ----- What is printed is read back

  lemma {:induction false} NumberOfDecimal(n: nat)
    ensures Number(Decimal(n)) == n
  {
    if n >= 10 {
      NumberOfDecimal(n / 10);
      var s := Decimal(n);
      assert s[..|s| - 1] == Decimal(n / 10);
    }
  }

  /** Whitespace, then something that is not. */
  lemma {:induction false} TrimSpaces(spaces: string, s: string)
    requires Blank(spaces) && (s == "" || !IsSpace(s[0]))
    ensures Trim(spaces + s) == s
  {
    if spaces == "" {
      assert spaces + s == s;
    } else {
      TrimSpaces(spaces[1..], s);
      assert (spaces + s)[1..] == spaces[1..] + s;
    }
  }

  lemma {:induction false} DigitsStop(digits: string, s: string)
    requires (forall c :: c in digits ==> IsDigit(c)) && (s == "" || !IsDigit(s[0]))
    ensures CountDigits(digits + s) == |digits|
  {
    if digits == "" {
      assert digits + s == s;
    } else {
      assert digits[0] in digits;
      assert forall c :: c in digits[1..] ==> c in digits;
      DigitsStop(digits[1..], s);
      assert (digits + s)[1..] == digits[1..] + s;
    }
  }

  lemma {:induction false} VisibleStops(word: string, s: string)
    requires (forall i :: 0 <= i < |word| ==> !IsSpace(word[i])) && (s == "" || IsSpace(s[0]))
    ensures CountVisible(word + s) == |word|
  {
    if word == "" {
      assert word + s == s;
    } else {
      VisibleStops(word[1..], s);
      assert (word + s)[1..] == word[1..] + s;
    }
  }

  lemma ReadsWord(word: string, s: string)
    requires word != "" && (forall i :: 0 <= i < |word| ==> !IsSpace(word[i])) && (s == "" || IsSpace(s[0]))
    ensures ReadWord(word + s) == Some((word, s))
  {
    TrimSpaces("", word + s);
    assert "" + (word + s) == word + s;
    VisibleStops(word, s);
  }

  lemma ReadsDigits(text: string, digits: string, s: string, limit: nat)
    requires digits != "" && (forall c :: c in digits ==> IsDigit(c)) && (s == "" || !IsDigit(s[0]))
    requires Trim(text) == digits + s
    ensures ReadNumber(text, limit) == if Number(digits) < limit then Some((Number(digits), s)) else None
  {
    hide Trim, Number, CountDigits;
    assert digits[0] in digits && (digits + s)[0] == digits[0];
    DigitsStop(digits, s);
    assert (digits + s)[..|digits|] == digits && (digits + s)[|digits|..] == s;
  }

  /** A printed number is read back exactly when it fits. */
  lemma ReadsDecimal(spaces: string, n: nat, s: string, limit: nat)
    requires Blank(spaces) && (s == "" || !IsDigit(s[0]))
    ensures ReadNumber(spaces + Decimal(n) + s, limit) == if n < limit then Some((n, s)) else None
  {
    hide ReadNumber, Decimal, Number, Trim;
    var digits := Decimal(n);
    assert digits[0] in digits && (digits + s)[0] == digits[0];
    TrimSpaces(spaces, digits + s);
    assert spaces + digits + s == spaces + (digits + s);
    NumberOfDecimal(n);
    ReadsDigits(spaces + digits + s, digits, s, limit);
  }

  /** Numbers separated by single spaces. */
  function Spaced(numbers: seq<nat>): string {
    if numbers == [] then "" else if |numbers| == 1 then Decimal(numbers[0])
    else Decimal(numbers[0]) + " " + Spaced(numbers[1..])
  }

  predicate Fit(numbers: seq<nat>, limits: seq<nat>) {
    |numbers| == |limits| && forall i :: 0 <= i < |numbers| ==> numbers[i] < limits[i]
  }

  /** A printed row of numbers is read back exactly when every one fits. */
  lemma {:induction false} ReadsSpaced(spaces: string, numbers: seq<nat>, limits: seq<nat>, s: string)
    requires Blank(spaces) && numbers != [] && |numbers| == |limits| && (s == "" || !IsDigit(s[0]))
    ensures ReadNumbers(spaces + Spaced(numbers) + s, limits) == if Fit(numbers, limits) then Some((numbers, s)) else None
    decreases |numbers|
  {
    hide ReadNumber, Decimal;
    if |numbers| == 1 {
      ReadsDecimal(spaces, numbers[0], s, limits[0]);
      assert limits[1..] == [] && ReadNumbers(s, limits[1..]) == Some(([], s));
      assert [numbers[0]] + [] == numbers;
      assert Fit(numbers, limits) <==> numbers[0] < limits[0];
    } else {
      var rest := " " + Spaced(numbers[1..]) + s;
      ReadsDecimal(spaces, numbers[0], rest, limits[0]);
      assert spaces + Spaced(numbers) + s == spaces + Decimal(numbers[0]) + rest;
      ReadsSpaced(" ", numbers[1..], limits[1..], s);
      assert [numbers[0]] + numbers[1..] == numbers;
      assert Fit(numbers, limits) <==> numbers[0] < limits[0] && Fit(numbers[1..], limits[1..]);
    }
  }
}
