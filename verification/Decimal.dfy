/** Decimal printing of numbers, as the `%v` verb prints them: what is printed can be read back. */
module Decimal {

  function Digit(d: nat): (c: char)
    requires d < 10
  {
    '0' + d as char
  }

  function Print(n: nat): (s: string) {
    if n < 10 then [Digit(n)] else Print(n / 10) + [Digit(n % 10)]
  }

  function PrintInt(n: int): (s: string) {
    if n < 0 then "-" + Print(-n) else Print(n)
  }

  // ---------------------------------------------------------------- reading back

  /** The number that a sequence of characters stands for, position by position. */
  function Read(s: string): int {
    if s == [] then 0 else 10 * Read(s[..|s| - 1]) + (s[|s| - 1] as int - '0' as int)
  }

  /** Digits only, at least one, and no leading zero. */
  predicate IsNumeral(s: string) {
    && s != []
    && (forall i | 0 <= i < |s| :: '0' <= s[i] <= '9')
    && (s[0] == '0' ==> |s| == 1)
  }

  lemma {:induction false} PrintThenRead(n: nat)
    ensures IsNumeral(Print(n)) && Read(Print(n)) == n
    ensures n > 0 ==> Print(n)[0] != '0'
  {
    var s := Print(n);
    if n < 10 {
      assert s[..0] == [];
    } else {
      PrintThenRead(n / 10);
      assert s[..|s| - 1] == Print(n / 10);
    }
  }

  lemma {:induction false} ReadGrows(s: string)
    requires IsNumeral(s)
    ensures Read(s) >= 0 && (|s| > 1 ==> Read(s) >= 10)
  {
    if |s| > 1 {
      var init := s[..|s| - 1];
      ReadGrows(init);
      if |init| == 1 {
        assert init[..0] == [];
      }
    } else {
      assert s[..0] == [];
    }
  }

  /** What is printed for n is the numeral that reads as n, and no other. */
  lemma {:induction false} PrintIsTheNumeral(n: nat, s: string)
    ensures s == Print(n) <==> IsNumeral(s) && Read(s) == n
  {
    PrintThenRead(n);
    if IsNumeral(s) && Read(s) == n {
      ReadGrows(s);
      if |s| == 1 {
        assert s[..0] == [] && s == [s[0]];
      } else {
        var init := s[..|s| - 1];
        ReadGrows(init);
        PrintIsTheNumeral(n / 10, init);
        assert s == init + [s[|s| - 1]];
      }
    }
  }

  /** A number below zero is printed as a minus sign before the numeral of its absolute value. */
  lemma PrintIntIsTheNumeral(n: int, s: string)
    requires IsNumeral(s) && Read(s) == if n < 0 then -n else n
    ensures PrintInt(n) == if n < 0 then ['-'] + s else s
  {
    PrintIsTheNumeral(if n < 0 then -n else n, s);
  }

  /** Two numbers that print alike are equal: the names built from a counter never repeat. */
  lemma PrintInjective(m: nat, n: nat)
    requires Print(m) == Print(n)
    ensures m == n
  {
    PrintThenRead(m);
    PrintThenRead(n);
  }
}
