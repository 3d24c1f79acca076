/** Decimal numerals, as printed by %d and read back by the parsers. */
module Decimal {

  predicate IsDigit(c: char) {
    '0' <= c <= '9'
  }

  function Digit(d: nat): (c: char)
    requires d < 10
    ensures IsDigit(c) && Value(c) == d
  {
    ('0' as int + d) as char
  }

  function Value(c: char): nat
    requires IsDigit(c)
  {
    c as int - '0' as int
  }

  function Print(n: nat): (s: string)
    ensures |s| >= 1 && AllDigits(s)
  {
    if n < 10 then [Digit(n)] else Print(n / 10) + [Digit(n % 10)]
  }

  predicate AllDigits(s: string) {
    forall i :: 0 <= i < |s| ==> IsDigit(s[i])
  }

  // Reading digits from the left, continuing the number `sofar`.
  function Number(s: string, sofar: nat): nat
    requires AllDigits(s)
  {
    if s == [] then sofar else Number(s[1..], sofar * 10 + Value(s[0]))
  }

  lemma {:induction false} NumberAppend(s: string, c: char, sofar: nat)
    requires AllDigits(s) && IsDigit(c)
    ensures AllDigits(s + [c]) && Number(s + [c], sofar) == Number(s, sofar) * 10 + Value(c)
  {
    if s == [] {
      assert Number([c][1..], sofar * 10 + Value(c)) == sofar * 10 + Value(c);
    } else {
      NumberAppend(s[1..], c, sofar * 10 + Value(s[0]));
      assert (s + [c])[1..] == s[1..] + [c];
    }
  }

  lemma {:induction false} PrintNumber(n: nat)
    ensures Number(Print(n), 0) == n
  {
    if n < 10 {
      assert Print(n)[1..] == "";
    } else {
      PrintNumber(n / 10);
      NumberAppend(Print(n / 10), Digit(n % 10), 0);
    }
  }

  function Zeros(k: nat): (s: string)
    ensures |s| == k && AllDigits(s)
  {
    seq(k, _ => '0')
  }

  lemma {:induction false} ZerosNumber(k: nat, n: nat)
    ensures AllDigits(Zeros(k) + Print(n)) && Number(Zeros(k) + Print(n), 0) == n
  {
    if k == 0 {
      PrintNumber(n);
      assert Zeros(0) + Print(n) == Print(n);
    } else {
      ZerosNumber(k - 1, n);
      var s := Zeros(k) + Print(n);
      assert s[0] == '0' && s[1..] == Zeros(k - 1) + Print(n);
    }
  }

  // A numeral is the printed number behind some zeros.
  lemma {:induction false} NumeralIs(s: string) returns (k: nat)
    requires s != "" && AllDigits(s)
    ensures s == Zeros(k) + Print(Number(s, 0))
  {
    var init, c := s[..|s| - 1], s[|s| - 1];
    assert s == init + [c];
    NumberAppend(init, c, 0);
    assert [Digit(Value(c))] == [c];
    if init == "" {
      k := 0;
    } else {
      k := NumeralIs(init);
      var m := Number(init, 0);
      if m == 0 {
        k := k + 1;
        assert init == Zeros(k);
      } else {
        assert Print(m * 10 + Value(c)) == Print(m) + [c];
      }
    }
  }

  // ---- Leading digits of a longer text ----

  function Span(s: string): (n: nat)
    ensures n <= |s| && AllDigits(s[..n])
    ensures n < |s| ==> !IsDigit(s[n])
  {
    if s == [] || !IsDigit(s[0]) then 0
    else
      var n := 1 + Span(s[1..]);
      assert s[..n] == [s[0]] + s[1..][..n - 1];
      n
  }

  lemma {:induction false} SpanOf(digits: string, rest: string)
    requires AllDigits(digits) && (rest == "" || !IsDigit(rest[0]))
    ensures Span(digits + rest) == |digits|
  {
    if digits == "" {
      assert digits + rest == rest;
    } else {
      SpanOf(digits[1..], rest);
      assert (digits + rest)[1..] == digits[1..] + rest;
    }
  }
}
