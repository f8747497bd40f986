// Decimal digits of natural numbers, printed and read back.
module Digits {
  predicate IsDigit(c: char) {
    '0' <= c <= '9'
  }

  predicate AllDigits(s: string) {
    s != "" && forall i :: 0 <= i < |s| ==> IsDigit(s[i])
  }

  function Show(n: nat): (s: string)
    ensures AllDigits(s)
  {
    var last := ['0' + (n % 10) as char];
    if n < 10 then last else Show(n / 10) + last
  }

  function ValueOf(s: string): nat
    requires forall i :: 0 <= i < |s| ==> IsDigit(s[i])
  {
    if s == "" then 0
    else
      assert IsDigit(s[|s| - 1]);
      10 * ValueOf(s[..|s| - 1]) + (s[|s| - 1] as int - '0' as int)
  }

  // What is printed reads back as the same number.
  lemma {:induction false} ShowReads(n: nat)
    ensures ValueOf(Show(n)) == n
  {
    var last := ['0' + (n % 10) as char];
    if n < 10 {
      assert last[..0] == "";
    } else {
      ShowReads(n / 10);
      assert (Show(n / 10) + last)[..|Show(n / 10)|] == Show(n / 10);
    }
  }

  // Reading drops leading zeros at most.
  lemma {:induction false} ReadsNoLonger(s: string)
    requires AllDigits(s)
    ensures |Show(ValueOf(s))| <= |s|
  {
    var init := s[..|s| - 1];
    if init == "" {
      assert ValueOf(s) < 10;
    } else {
      ReadsNoLonger(init);
      assert ValueOf(s) / 10 == ValueOf(init);
    }
  }

  // What is read without a leading zero is printed back.
  lemma {:induction false} ReadShows(s: string)
    requires AllDigits(s) && s[0] != '0'
    ensures Show(ValueOf(s)) == s && ValueOf(s) > 0
  {
    var init, last := s[..|s| - 1], s[|s| - 1];
    assert IsDigit(last) && s == init + [last];
    if init == "" {
      assert ValueOf(s) == last as int - '0' as int;
    } else {
      ReadShows(init);
      assert ValueOf(s) / 10 == ValueOf(init) && ValueOf(s) % 10 == last as int - '0' as int;
    }
  }
}
