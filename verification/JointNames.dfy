// Axis names derived from the firmware's axis count (litearm_driver_node.cpp, on_configure).
module JointNames {

  const DIGITS := "0123456789"

  // std::to_string on a non-negative number.
  function Decimal(n: nat): (s: string)
    ensures s != ""
  {
    if n < 10 then [DIGITS[n]] else Decimal(n / 10) + [DIGITS[n % 10]]
  }

  function Derived(count: nat): seq<string> {
    seq(count, i requires 0 <= i => "joint" + Decimal(i + 1))
  }

  method DeriveNames(count: nat) returns (names: seq<string>)
    ensures names == Derived(count)
  {
    names := [];
    for axis := 1 to count + 1
      invariant names == Derived(axis - 1)
    {
      names := names + ["joint" + Decimal(axis)];
    }
  }

  // Decimal printing is read back by Value, hence injective.

  function Digit(c: char): nat {
    if '0' <= c <= '9' then (c - '0') as nat else 0
  }

  function Value(s: string): nat {
    if s == "" then 0 else 10 * Value(s[..|s| - 1]) + Digit(s[|s| - 1])
  }

  lemma {:induction false} ValueOfDecimal(n: nat)
    ensures Value(Decimal(n)) == n
  {
    if n < 10 {
      assert Decimal(n)[..0] == "";
    } else {
      ValueOfDecimal(n / 10);
      var s := Decimal(n);
      assert s[..|s| - 1] == Decimal(n / 10);
    }
  }

  predicate IsDigit(c: char) {
    '0' <= c <= '9'
  }

  // A decimal has digits only and no leading zero.
  lemma {:induction false} DecimalIsCanonical(n: nat)
    ensures forall i :: 0 <= i < |Decimal(n)| ==> IsDigit(Decimal(n)[i])
    ensures n > 0 ==> Decimal(n)[0] != '0'
    ensures n < 10 ==> Decimal(n) == ['0' + n as char]
    ensures n >= 10 ==> Decimal(n) == Decimal(n / 10) + Decimal(n % 10)
  {
    if n < 10 {
    } else {
      DecimalIsCanonical(n / 10);
    }
  }

  // Exactly one name per axis, in axis order, no two alike: "joint" and the axis number from one.
  lemma DerivedNamesAreDistinct(count: nat)
    ensures |Derived(count)| == count
    ensures forall i, j :: 0 <= i < j < count ==> Derived(count)[i] != Derived(count)[j]
    ensures forall i :: 0 <= i < count ==> NamesAxis(Derived(count)[i], i + 1)
  {
    forall i | 0 <= i < count
      ensures NamesAxis(Derived(count)[i], i + 1)
      ensures Value(Derived(count)[i][5..]) == i + 1
    {
      assert ("joint" + Decimal(i + 1))[5..] == Decimal(i + 1);
      assert ("joint" + Decimal(i + 1))[..5] == "joint";
      ValueOfDecimal(i + 1);
      DecimalIsCanonical(i + 1);
    }
  }

  // "joint" followed by the axis number in digits, without a leading zero.
  predicate NamesAxis(name: string, axis: nat) {
    && |name| > 5 && name[..5] == "joint"
    && (forall i :: 5 <= i < |name| ==> IsDigit(name[i]))
    && name[5] != '0' && Value(name[5..]) == axis
  }
}
