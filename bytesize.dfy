/**
 * `MainWindow.FormatBytes` without its final rendering: the unit a byte count is shown
 * in and the value shown.
 */
module ByteSize {

  /** The units `FormatBytes` chooses from. */
  const Units: seq<string> := ["B", "KB", "MB", "GB", "TB"]

  /** 1024 to the power `n`: the size of the n-th unit. */
  function Pow1024(n: nat): (p: nat)
    ensures p >= 1
  {
    if n == 0 then 1 else 1024 * Pow1024(n - 1)
  }

  lemma {:induction false} Pow1024Grows(m: nat, n: nat)
    requires m <= n
    ensures Pow1024(m) <= Pow1024(n)
    decreases n - m
  {
    if m < n {
      Pow1024Grows(m, n - 1);
    }
  }

  /** The unit `FormatBytes` picks for `bytes`, searching upwards from unit `k`. */
  function UnitFrom(bytes: int, k: nat): (u: nat)
    requires k < |Units|
    decreases |Units| - k
    ensures k <= u < |Units|
    ensures u > k ==> Pow1024(u) <= bytes
    ensures u < |Units| - 1 ==> bytes < 1024 * Pow1024(u)
  {
    if k < |Units| - 1 && bytes >= 1024 * Pow1024(k) then UnitFrom(bytes, k + 1) else k
  }

  /** The unit of `bytes`: the largest of B, KB, MB, GB, TB whose size does not exceed
      the amount, and B for amounts below one KB. */
  function UnitFor(bytes: int): (u: nat)
    ensures u < |Units|
    ensures u > 0 ==> Pow1024(u) <= bytes
    ensures u < |Units| - 1 ==> bytes < 1024 * Pow1024(u)
  {
    UnitFrom(bytes, 0)
  }

  /** Only one unit fits an amount: the one `UnitFor` names. */
  lemma UnitForIsOnlyFit(bytes: int, u: nat)
    requires u < |Units|
    requires u > 0 ==> Pow1024(u) <= bytes
    requires u < |Units| - 1 ==> bytes < 1024 * Pow1024(u)
    ensures u == UnitFor(bytes)
  {
    var w := UnitFor(bytes);
    if u < w {
      Pow1024Grows(u + 1, w);
    } else if w < u {
      Pow1024Grows(w + 1, u);
    }
  }

  /** The amount `bytes` expressed in its unit. */
  function Amount(bytes: int): real
  {
    (bytes as real) / (Pow1024(UnitFor(bytes)) as real)
  }

  /** Multiplied by the size of its unit, the amount gives back the byte count. */
  lemma AmountTimesUnitIsBytes(bytes: int)
    ensures Amount(bytes) * (Pow1024(UnitFor(bytes)) as real) == bytes as real
  {
    BackInBytes(bytes as real, Pow1024(UnitFor(bytes)) as real);
  }

  /** `FormatBytes` before rendering: divides by 1024 while the value is at least 1024
      and a larger unit exists. It picks the unit of the amount and expresses the
      amount in it. The `0.##` rendering of the value is not modelled. */
  method FormatBytes(bytes: int) returns (value: real, unit: nat)
    ensures unit == UnitFor(bytes) && unit < |Units|
    ensures value == Amount(bytes)
  {
    value := bytes as real;
    unit := 0;
    while value >= 1024.0 && unit < |Units| - 1
      invariant unit < |Units|
      invariant UnitFrom(bytes, unit) == UnitFor(bytes)
      invariant value == (bytes as real) / (Pow1024(unit) as real)
      decreases |Units| - unit
    {
      AtLeastOneMore(bytes as real, Pow1024(unit) as real);
      DivideAgain(bytes as real, Pow1024(unit) as real);
      value := value / 1024.0;
      unit := unit + 1;
    }
    if unit < |Units| - 1 {
      AtLeastOneMore(bytes as real, Pow1024(unit) as real);
    }
  }

  /** Dividing the amount in one unit by 1024 gives it in the next unit. */
  lemma DivideAgain(b: real, s: real)
    requires s > 0.0
    ensures (b / s) / 1024.0 == b / (s * 1024.0)
  {
    var v := b / s;
    assert v * s == b;
    assert (v / 1024.0) * (s * 1024.0) == v * s;
  }

  /** Multiplying the amount in a unit by the unit's size gives it back in bytes. */
  lemma BackInBytes(b: real, s: real)
    requires s > 0.0
    ensures (b / s) * s == b
  {
  }

  /** An amount is at least 1024 of a unit exactly when it is at least one of the next. */
  lemma AtLeastOneMore(b: real, s: real)
    requires s > 0.0
    ensures b / s >= 1024.0 <==> b >= 1024.0 * s
  {
    var v := b / s;
    assert v * s == b;
    if v >= 1024.0 {
      assert v * s >= 1024.0 * s;
    } else {
      assert v * s < 1024.0 * s;
    }
  }
}
