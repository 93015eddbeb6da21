/** `str(n)` for a non-negative integer: its decimal digits. */
module Decimal {
  import opened Bytes

  function Digit(d: nat): (c: Octet)
    requires d < 10
    ensures '0' <= c <= '9' && c as int - '0' as int == d
  {
    ('0' as int + d) as char
  }

  predicate AllDigits(s: Bytes) {
    forall c :: c in s ==> '0' <= c <= '9'
  }

  function Of(n: nat): (s: Bytes)
    ensures s != [] && AllDigits(s)
  {
    if n < 10 then [Digit(n)] else Of(n / 10) + [Digit(n % 10)]
  }

  function ValueOf(s: Bytes): nat
    requires AllDigits(s)
  {
    if s == [] then 0
    else
      assert s[|s| - 1] in s;
      var init := s[..|s| - 1];
      assert forall i :: 0 <= i < |init| ==> init[i] == s[i] && s[i] in s;
      10 * ValueOf(init) + (s[|s| - 1] as int - '0' as int)
  }

  lemma {:induction false} ValueOfOf(n: nat)
    ensures ValueOf(Of(n)) == n
  {
    var s := Of(n);
    if n >= 10 {
      assert s[..|s| - 1] == Of(n / 10);
      ValueOfOf(n / 10);
    } else {
      assert s[..0] == [];
      assert ValueOf([]) == 0;
    }
  }

  lemma Injective(m: nat, n: nat)
    requires Of(m) == Of(n)
    ensures m == n
  {
    ValueOfOf(m);
    ValueOfOf(n);
  }
}
