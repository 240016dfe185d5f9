/** `useFloatingId`: ids `floating-ui-<n>` drawn from one counter shared by
    every component on the page. */
module FloatingId {

  /** The decimal digits of `n`, as a template literal prints it. */
  function Decimal(n: nat): (s: string)
    ensures |s| >= 1
    ensures forall i :: 0 <= i < |s| ==> '0' <= s[i] <= '9'
    ensures |s| > 1 ==> s[0] != '0'
    decreases n
  {
    if n < 10 then [Digit(n)] else Decimal(n / 10) + [Digit(n % 10)]
  }

  function Digit(d: nat): (c: char)
    requires d < 10
    ensures '0' <= c <= '9' && c as int - '0' as int == d
  {
    ('0' as int + d) as char
  }

  /** Reading the digits back gives the number: printing is one-to-one. */
  function Value(s: string): int {
    if s == [] then 0 else 10 * Value(s[..|s| - 1]) + (s[|s| - 1] as int - '0' as int)
  }

  lemma {:induction false} DecimalValue(n: nat)
    ensures Value(Decimal(n)) == n
    decreases n
  {
    var s := Decimal(n);
    if n < 10 {
      assert s[..|s| - 1] == [];
    } else {
      DecimalValue(n / 10);
      assert s[..|s| - 1] == Decimal(n / 10);
    }
  }

  /** Distinct counter values print differently. */
  lemma DecimalInjective(a: nat, b: nat)
    requires Decimal(a) == Decimal(b)
    ensures a == b
  {
    DecimalValue(a);
    DecimalValue(b);
  }

  const Prefix: string := "floating-ui-"

  /** The module-level `globalId` counter. */
  class IdCounter {
    var globalId: nat

    constructor ()
      ensures globalId == 0
    {
      globalId := 0;
    }

    /** `genId`: the id for the counter value before the call, then one more. */
    method GenId() returns (id: string)
      modifies this
      ensures id == Prefix + Decimal(old(globalId))
      ensures globalId == old(globalId) + 1
    {
      id := Prefix + Decimal(globalId);
      globalId := globalId + 1;
    }
  }

  /** Ids for different counter values differ. */
  lemma IdsDistinct(a: nat, b: nat)
    requires a != b
    ensures Prefix + Decimal(a) != Prefix + Decimal(b)
  {
    if Prefix + Decimal(a) == Prefix + Decimal(b) {
      assert Decimal(a) == (Prefix + Decimal(a))[|Prefix|..];
      assert Decimal(b) == (Prefix + Decimal(b))[|Prefix|..];
      DecimalInjective(a, b);
    }
  }

  /** Two components on a fresh page get `floating-ui-0` and `floating-ui-1`,
      and the counter has moved on by two. */
  method TwoIds() returns (first: string, second: string)
    ensures first == "floating-ui-0" && second == "floating-ui-1"
    ensures first != second
  {
    var counter := new IdCounter();
    first := counter.GenId();
    second := counter.GenId();
    assert Decimal(0) == "0" && Decimal(1) == "1";
    IdsDistinct(0, 1);
  }
}
